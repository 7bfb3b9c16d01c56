/**
 One broadcast campaign paged over the shop's users: page tasks run any number
 of times, late, twice at once or not to the end, while users come and go.
 */
module Campaign {
  import opened Wrappers

  const MAX_PAGE := 100
  const DEFAULT_PAGE := 50
  const CLAIM_TIMEOUT_MS := 300_000

  datatype Status = Pending | Sending | Sent | Failed

  /** A recipient's delivery record of the campaign. */
  datatype Record = Record(status: Status, updatedAt: nat)
  {
    predicate Settled() { status.Sent? || status.Failed? }

    predicate Claimable(now: nat) { status.Pending? || (status.Sending? && updatedAt + CLAIM_TIMEOUT_MS < now) }
  }

  type Records = map<nat, Record>

  datatype Task = Task(cursor: Option<nat>, limit: Option<int>)

  /** How a page ended with one recipient: settled before it came, settled by it,
      claimed by another page, or put back for a retry. */
  datatype Outcome = SentBefore | FailedBefore | SentNow | FailedNow | Taken | Requeued

  /** How far a page has come with one recipient. */
  datatype Stage = Waiting | Recorded | Claimed | Over(how: Outcome)

  datatype Phase =
    | Idle
    | Admitted(task: Task)
    | Paging(task: Task, page: seq<nat>, hasMore: bool, stages: map<nat, Stage>, broken: bool)
    | Counted(task: Task, page: seq<nat>, hasMore: bool, counts: Records)
    | Publishing(next: nat, limit: Option<int>)

  /** `active` lists the active users by ascending id; `sentOn` is history: the
      records as counted when the campaign was closed. */
  datatype State = State(active: seq<nat>, records: Records, published: set<Task>, workers: map<nat, Phase>,
                         sent: bool, sentOn: Option<Records>, now: nat)

  datatype SendResult = Delivered | Refused | Retry

  datatype Event =
    | SetUsers(users: seq<nat>)
    | Tick(ms: nat)
    | Enqueue(limit: Option<int>)
    | Admit(worker: nat, task: Task)
    | List(worker: nat)
    | CreateRecord(worker: nat, user: nat)
    | Claim(worker: nat, user: nat)
    | Finish(worker: nat, user: nat, result: SendResult)
    | Break(worker: nat, user: nat)
    | GiveUp(worker: nat)
    | Count(worker: nat)
    | Close(worker: nat)
    | PublishNext(worker: nat)
    | Crash(worker: nat)

  // ---- Paging --------------------------------------------------------------

  predicate Ascending(users: seq<nat>) { forall i, j :: 0 <= i < j < |users| ==> users[i] < users[j] }

  predicate Behind(cursor: Option<nat>, user: nat) { cursor.Some? && user <= cursor.value }

  function Above(users: seq<nat>, cursor: Option<nat>): seq<nat> {
    if users == [] then [] else (if Behind(cursor, users[0]) then [] else [users[0]]) + Above(users[1..], cursor)
  }

  function RequestedLimit(limit: Option<int>): nat {
    if limit.Some? && limit.value > 0 then (if limit.value < MAX_PAGE then limit.value else MAX_PAGE) else 0
  }

  /** A limit of zero is no limit. */
  function Limited(users: seq<nat>, limit: nat): seq<nat> {
    if limit > 0 && limit < |users| then users[..limit] else users
  }

  function Found(users: seq<nat>, task: Task): seq<nat> {
    var n := RequestedLimit(task.limit);
    Limited(Above(users, task.cursor), if n > 0 then n + 1 else 0)
  }

  function HasMore(users: seq<nat>, task: Task): bool {
    var n := RequestedLimit(task.limit); n > 0 && |Found(users, task)| > n
  }

  function Page(users: seq<nat>, task: Task): seq<nat> {
    if HasMore(users, task) then Found(users, task)[..RequestedLimit(task.limit)] else Found(users, task)
  }

  function Fresh(page: seq<nat>): map<nat, Stage> { map u | u in page :: Waiting }

  // ---- Steps ---------------------------------------------------------------

  function PhaseOf(s: State, w: nat): Phase { if w in s.workers then s.workers[w] else Idle }

  function Goto(s: State, w: nat, phase: Phase): State { s.(workers := s.workers[w := phase]) }

  predicate At(s: State, w: nat, user: nat, stage: Stage) {
    PhaseOf(s, w).Paging? && user in PhaseOf(s, w).stages && PhaseOf(s, w).stages[user] == stage
  }

  function Advanced(phase: Phase, user: nat, stage: Stage): Phase
    requires phase.Paging?
  {
    phase.(stages := phase.stages[user := stage])
  }

  function Put(s: State, user: nat, status: Status): State { s.(records := s.records[user := Record(status, s.now)]) }

  function Created(s: State, user: nat): State { if user in s.records then s else Put(s, user, Pending) }

  /** A record that is settled already needs nothing more. */
  function StageFor(status: Status): Stage {
    match status
    case Sent => Over(SentBefore)
    case Failed => Over(FailedBefore)
    case _ => Recorded
  }

  function AfterCreate(s: State, w: nat, user: nat): State
    requires PhaseOf(s, w).Paging?
  {
    var t := Created(s, user);
    Goto(t, w, Advanced(PhaseOf(s, w), user, StageFor(t.records[user].status)))
  }

  function AfterClaim(s: State, w: nat, user: nat): State
    requires PhaseOf(s, w).Paging?
  {
    if user in s.records && s.records[user].Claimable(s.now)
    then Goto(Put(s, user, Sending), w, Advanced(PhaseOf(s, w), user, Claimed))
    else Goto(s, w, Advanced(PhaseOf(s, w).(broken := true), user, Over(Taken)))
  }

  function StatusAfter(result: SendResult): Status {
    match result
    case Delivered => Sent
    case Refused => Failed
    case Retry => Pending
  }

  function OutcomeOf(result: SendResult): Outcome {
    match result case Delivered => SentNow case Refused => FailedNow case Retry => Requeued
  }

  function AfterFinish(s: State, w: nat, user: nat, result: SendResult): State
    requires PhaseOf(s, w).Paging?
  {
    var phase := PhaseOf(s, w);
    Goto(Put(s, user, StatusAfter(result)), w,
         Advanced(phase.(broken := phase.broken || result.Retry?), user, Over(OutcomeOf(result))))
  }

  predicate AllOver(stages: map<nat, Stage>) { forall u :: u in stages ==> stages[u].Over? }

  predicate AllSettled(records: Records) { forall u :: u in records ==> records[u].Settled() }

  function AfterCount(s: State, w: nat): State
    requires PhaseOf(s, w).Paging?
  {
    var p := PhaseOf(s, w);
    if !p.hasMore && !AllSettled(s.records) then Goto(s, w, Idle)
    else Goto(s, w, Counted(p.task, p.page, p.hasMore, s.records))
  }

  function AfterClose(s: State, w: nat): State
    requires PhaseOf(s, w).Counted?
  {
    var p := PhaseOf(s, w);
    if p.hasMore && p.page != [] then Goto(s, w, Publishing(p.page[|p.page| - 1], p.task.limit))
    else Goto(s, w, Idle).(sent := true, sentOn := Some(p.counts))
  }

  function NextTask(next: nat, limit: Option<int>): Task {
    Task(Some(next), if limit.Some? then limit else Some(DEFAULT_PAGE))
  }

  /** What one worker's event does; an event that is not enabled changes nothing. */
  function WorkerStep(s: State, e: Event): State {
    match e
    case Admit(w, task) =>
      if PhaseOf(s, w).Idle? && task in s.published && !s.sent then Goto(s, w, Admitted(task)) else s
    case List(w) =>
      (match PhaseOf(s, w)
       case Admitted(task) =>
         Goto(s, w, Paging(task, Page(s.active, task), HasMore(s.active, task), Fresh(Page(s.active, task)), false))
       case _ => s)
    case CreateRecord(w, u) => if At(s, w, u, Waiting) then AfterCreate(s, w, u) else s
    case Claim(w, u) => if At(s, w, u, Recorded) then AfterClaim(s, w, u) else s
    case Finish(w, u, result) => if At(s, w, u, Claimed) then AfterFinish(s, w, u, result) else s
    case Break(w, u) =>
      if PhaseOf(s, w).Paging? && u in PhaseOf(s, w).stages then Goto(s, w, PhaseOf(s, w).(broken := true)) else s
    case GiveUp(w) => if PhaseOf(s, w).Paging? && PhaseOf(s, w).broken then Goto(s, w, Idle) else s
    case Count(w) =>
      if PhaseOf(s, w).Paging? && !PhaseOf(s, w).broken && AllOver(PhaseOf(s, w).stages) then AfterCount(s, w) else s
    case Close(w) => if PhaseOf(s, w).Counted? then AfterClose(s, w) else s
    case PublishNext(w) =>
      (match PhaseOf(s, w)
       case Publishing(next, limit) => Goto(s, w, Idle).(published := s.published + {NextTask(next, limit)})
       case _ => s)
    case Crash(w) => Goto(s, w, Idle)
    case _ => s
  }

  /** `steady` are the users who stay active throughout. */
  function Step(s: State, e: Event, steady: set<nat>): State {
    match e
    case SetUsers(users) =>
      if Ascending(users) && (forall u :: u in steady ==> u in users) then s.(active := users) else s
    case Tick(ms) => s.(now := s.now + ms)
    case Enqueue(limit) => s.(published := s.published + {Task(None, limit)})
    case _ => WorkerStep(s, e)
  }

  function Run(s: State, events: seq<Event>, steady: set<nat>): State
    decreases |events|
  {
    if events == [] then s else Run(Step(s, events[0], steady), events[1..], steady)
  }

  // ---- The invariant -------------------------------------------------------

  /** No recordless steady user lies behind the cursor. */
  ghost predicate Covered(records: Records, steady: set<nat>, cursor: Option<nat>) {
    forall u :: u in steady && Behind(cursor, u) ==> u in records
  }

  predicate Past(page: seq<nat>, hasMore: bool, u: nat) { hasMore && page != [] && u > page[|page| - 1] }

  ghost predicate PhaseFits(phase: Phase, records: Records, steady: set<nat>) {
    match phase
    case Idle => true
    case Admitted(task) => Covered(records, steady, task.cursor)
    case Paging(_, page, hasMore, stages, _) =>
      && (hasMore ==> page != [])
      && (forall u :: u in steady ==> u in records || u in stages || Past(page, hasMore, u))
      && (forall u :: u in stages && !stages[u].Waiting? ==> u in records)
    case Counted(_, page, hasMore, counts) =>
      && (hasMore ==> page != []) && (!hasMore ==> AllSettled(counts)) && counts.Keys <= records.Keys
      && (forall u :: u in steady ==> u in counts || Past(page, hasMore, u))
    case Publishing(next, _) => Covered(records, steady, Some(next))
  }

  ghost predicate PhasesFit(workers: map<nat, Phase>, records: Records, steady: set<nat>) {
    forall w :: w in workers ==> PhaseFits(workers[w], records, steady)
  }

  ghost predicate TasksFit(published: set<Task>, records: Records, steady: set<nat>) {
    forall t :: t in published ==> Covered(records, steady, t.cursor)
  }

  ghost predicate ClosedWell(s: State, steady: set<nat>) {
    s.sent ==> s.sentOn.Some? && AllSettled(s.sentOn.value) && steady <= s.sentOn.value.Keys <= s.records.Keys
  }

  ghost predicate UsersFit(active: seq<nat>, steady: set<nat>) {
    Ascending(active) && forall u :: u in steady ==> u in active
  }

  ghost predicate Inv(s: State, steady: set<nat>) {
    && UsersFit(s.active, steady) && PhasesFit(s.workers, s.records, steady)
    && TasksFit(s.published, s.records, steady) && ClosedWell(s, steady)
  }

  // ---- Pages cover ---------------------------------------------------------

  lemma {:induction false} AboveHas(users: seq<nat>, cursor: Option<nat>, u: nat)
    ensures u in Above(users, cursor) <==> u in users && !Behind(cursor, u)
  {
    if users != [] { AboveHas(users[1..], cursor, u); }
  }

  lemma {:induction false} AboveAscends(users: seq<nat>, cursor: Option<nat>)
    requires Ascending(users)
    ensures Ascending(Above(users, cursor))
  {
    if users != [] {
      AboveAscends(users[1..], cursor);
      var rest := Above(users[1..], cursor);
      forall k | 0 <= k < |rest| ensures users[0] < rest[k] {
        assert rest[k] in rest;
        AboveHas(users[1..], cursor, rest[k]);
      }
    }
  }

  lemma FirstOrPast(users: seq<nat>, n: nat, u: nat)
    requires Ascending(users) && 0 < n < |users| && u in users
    ensures u in users[..n] || u > users[n - 1]
  {
  }

  /** A page misses no active user past the cursor but those past its end. */
  lemma PageCovers(users: seq<nat>, task: Task, u: nat)
    requires Ascending(users) && u in users && !Behind(task.cursor, u)
    ensures HasMore(users, task) ==> Page(users, task) != []
    ensures u in Page(users, task) || Past(Page(users, task), HasMore(users, task), u)
  {
    var above := Above(users, task.cursor);
    var n := RequestedLimit(task.limit);
    AboveHas(users, task.cursor, u);
    AboveAscends(users, task.cursor);
    if HasMore(users, task) {
      assert Page(users, task) == above[..n];
      FirstOrPast(above, n, u);
    } else { assert Found(users, task) == above; }
  }

  // ---- Every step keeps the invariant --------------------------------------

  lemma Moves(s: State, steady: set<nat>, w: nat, phase: Phase)
    requires Inv(s, steady) && PhaseFits(phase, s.records, steady)
    ensures Inv(Goto(s, w, phase), steady)
  {
  }

  lemma ListKeeps(s: State, steady: set<nat>, w: nat, task: Task)
    requires Inv(s, steady) && PhaseOf(s, w) == Admitted(task)
    ensures Inv(Step(s, List(w), steady), steady)
  {
    assert PhaseFits(s.workers[w], s.records, steady);
    var page, more := Page(s.active, task), HasMore(s.active, task);
    forall u | u in steady ensures u in s.records || u in Fresh(page) || Past(page, more, u) {
      if !Behind(task.cursor, u) { PageCovers(s.active, task, u); }
    }
    MoreMeansSome(s.active, task);
    Moves(s, steady, w, Paging(task, page, more, Fresh(page), false));
  }

  lemma MoreMeansSome(users: seq<nat>, task: Task)
    ensures HasMore(users, task) ==> Page(users, task) != []
  {
  }

  lemma CreateKeeps(s: State, steady: set<nat>, w: nat, u: nat)
    requires Inv(s, steady) && At(s, w, u, Waiting)
    ensures Inv(AfterCreate(s, w, u), steady)
  {
  }

  lemma ClaimKeeps(s: State, steady: set<nat>, w: nat, u: nat)
    requires Inv(s, steady) && At(s, w, u, Recorded)
    ensures Inv(AfterClaim(s, w, u), steady)
  {
  }

  lemma FinishKeeps(s: State, steady: set<nat>, w: nat, u: nat, result: SendResult)
    requires Inv(s, steady) && At(s, w, u, Claimed)
    ensures Inv(AfterFinish(s, w, u, result), steady)
  {
  }

  lemma CountKeeps(s: State, steady: set<nat>, w: nat)
    requires Inv(s, steady) && PhaseOf(s, w).Paging? && AllOver(PhaseOf(s, w).stages)
    ensures Inv(AfterCount(s, w), steady)
  {
  }

  lemma CloseKeeps(s: State, steady: set<nat>, w: nat)
    requires Inv(s, steady) && PhaseOf(s, w).Counted?
    ensures Inv(AfterClose(s, w), steady)
  {
  }

  lemma BreakKeeps(s: State, steady: set<nat>, w: nat)
    requires Inv(s, steady) && PhaseOf(s, w).Paging?
    ensures Inv(Goto(s, w, PhaseOf(s, w).(broken := true)), steady)
  {
  }

  lemma PublishKeeps(s: State, steady: set<nat>, w: nat)
    requires Inv(s, steady) && PhaseOf(s, w).Publishing?
    ensures Inv(Step(s, PublishNext(w), steady), steady)
  {
  }

  /** The events of a page that serves its recipients. */
  lemma ServingKeeps(s: State, e: Event, steady: set<nat>)
    requires Inv(s, steady) && (e.CreateRecord? || e.Claim? || e.Finish? || e.Break? || e.Count?)
    ensures Inv(WorkerStep(s, e), steady)
  {
    match e
    case CreateRecord(w, u) => if At(s, w, u, Waiting) { CreateKeeps(s, steady, w, u); }
    case Claim(w, u) => if At(s, w, u, Recorded) { ClaimKeeps(s, steady, w, u); }
    case Finish(w, u, result) => if At(s, w, u, Claimed) { FinishKeeps(s, steady, w, u, result); }
    case Break(w, u) => if PhaseOf(s, w).Paging? { BreakKeeps(s, steady, w); }
    case Count(w) => if PhaseOf(s, w).Paging? && AllOver(PhaseOf(s, w).stages) { CountKeeps(s, steady, w); }
  }

  lemma UsersKeep(s: State, users: seq<nat>, steady: set<nat>)
    requires Inv(s, steady)
    ensures Inv(Step(s, SetUsers(users), steady), steady)
  {
  }

  lemma StepKeeps(s: State, e: Event, steady: set<nat>)
    requires Inv(s, steady)
    ensures Inv(Step(s, e, steady), steady)
  {
    match e
    case SetUsers(users) => UsersKeep(s, users, steady);
    case Tick(_) =>
    case Enqueue(_) =>
    case Admit(w, task) =>
      if task in s.published { assert Covered(s.records, steady, task.cursor); Moves(s, steady, w, Admitted(task)); }
    case List(w) => if PhaseOf(s, w).Admitted? { ListKeeps(s, steady, w, PhaseOf(s, w).task); }
    case GiveUp(w) => Moves(s, steady, w, Idle);
    case Close(w) => if PhaseOf(s, w).Counted? { CloseKeeps(s, steady, w); }
    case PublishNext(w) => if PhaseOf(s, w).Publishing? { PublishKeeps(s, steady, w); }
    case Crash(w) => Moves(s, steady, w, Idle);
    case _ => ServingKeeps(s, e, steady);
  }

  lemma {:induction false} RunKeeps(s: State, events: seq<Event>, steady: set<nat>)
    requires Inv(s, steady)
    ensures Inv(Run(s, events, steady), steady)
    decreases |events|
  {
    if events != [] {
      StepKeeps(s, events[0], steady);
      RunKeeps(Step(s, events[0], steady), events[1..], steady);
    }
  }

  function Empty(users: seq<nat>): State { State(users, map[], {}, map[], false, None, 0) }

  /** Main result: in every run, no user who stayed active and has no record lies
      behind the cursor of any page task ever published. */
  lemma CursorsSkipNobody(users: seq<nat>, events: seq<Event>, steady: set<nat>, task: Task, user: nat)
    requires UsersFit(users, steady) && user in steady
    requires task in Run(Empty(users), events, steady).published && Behind(task.cursor, user)
    ensures user in Run(Empty(users), events, steady).records
  {
    RunKeeps(Empty(users), events, steady);
    assert Covered(Run(Empty(users), events, steady).records, steady, task.cursor);
  }

  /** Main result: a campaign is closed only on a count in which every user who
      stayed active has a record and every record is sent or failed. */
  lemma ClosedMeansEveryoneServed(users: seq<nat>, events: seq<Event>, steady: set<nat>, user: nat)
    requires UsersFit(users, steady) && user in steady && Run(Empty(users), events, steady).sent
    ensures var s := Run(Empty(users), events, steady);
      && s.sentOn.Some? && AllSettled(s.sentOn.value)
      && user in s.sentOn.value && s.sentOn.value[user].Settled() && user in s.records
  {
    RunKeeps(Empty(users), events, steady);
  }

  // ---- After the campaign is closed ----------------------------------------

  predicate SettledAmong(records: Records, users: set<nat>) {
    forall u :: u in users ==> u in records && records[u].Settled()
  }

  /** No page is between claiming one of the users and recording the result. */
  ghost predicate NoneClaimed(s: State, users: set<nat>) { forall w, u :: u in users ==> !At(s, w, u, Claimed) }

  ghost predicate StaySettled(s: State, users: set<nat>, steady: set<nat>) {
    forall events :: SettledAmong(Run(s, events, steady).records, users)
  }

  lemma SettledStep(s: State, e: Event, users: set<nat>, steady: set<nat>)
    requires SettledAmong(s.records, users) && NoneClaimed(s, users)
    ensures SettledAmong(Step(s, e, steady).records, users) && NoneClaimed(Step(s, e, steady), users)
  {
    var t := Step(s, e, steady);
    forall w, u | u in users ensures !At(t, w, u, Claimed) { assert !At(s, w, u, Claimed); }
    if e.Finish? { assert e.user in users ==> !At(s, e.worker, e.user, Claimed); }
  }

  lemma {:induction false} SettledRun(s: State, events: seq<Event>, users: set<nat>, steady: set<nat>)
    requires SettledAmong(s.records, users) && NoneClaimed(s, users)
    ensures SettledAmong(Run(s, events, steady).records, users)
    decreases |events|
  {
    if events != [] {
      SettledStep(s, events[0], users, steady);
      SettledRun(Step(s, events[0], steady), events[1..], users, steady);
    }
  }

  lemma ClaimUnsettles(s: State, w: nat, u: nat, users: set<nat>, steady: set<nat>)
    requires u in users && At(s, w, u, Claimed)
    ensures !StaySettled(s, users, steady)
  {
    RunOne(s, Finish(w, u, Retry), steady);
    assert Step(s, Finish(w, u, Retry), steady).records[u].status.Pending?;
    assert !SettledAmong(Run(s, [Finish(w, u, Retry)], steady).records, users);
  }

  /** Main result: users' records stay settled whatever follows if and only if
      they are settled and no page holds a claim on one of them. */
  lemma SettledForGood(s: State, users: set<nat>, steady: set<nat>)
    ensures StaySettled(s, users, steady) <==> SettledAmong(s.records, users) && NoneClaimed(s, users)
  {
    if SettledAmong(s.records, users) && NoneClaimed(s, users) {
      forall events ensures SettledAmong(Run(s, events, steady).records, users) {
        SettledRun(s, events, users, steady);
      }
    } else if StaySettled(s, users, steady) {
      assert Run(s, [], steady) == s;
      var w, u :| u in users && At(s, w, u, Claimed);
      ClaimUnsettles(s, w, u, users, steady);
    }
  }

  /** Main result: the records a campaign was closed on stay sent or failed for
      good if and only if at the closing they all still are and no page holds a
      claim on one of them. */
  lemma ClosedRecordsStay(s: State, w: nat, steady: set<nat>)
    requires PhaseOf(s, w).Counted? && !PhaseOf(s, w).hasMore
    ensures var t := Step(s, Close(w), steady); var counted := PhaseOf(s, w).counts;
      && t.sent && t.sentOn == Some(counted)
      && (StaySettled(t, counted.Keys, steady) <==>
           SettledAmong(s.records, counted.Keys) && NoneClaimed(s, counted.Keys))
  {
    var t, users := Step(s, Close(w), steady), PhaseOf(s, w).counts.Keys;
    SettledForGood(t, users, steady);
    forall v, u ensures At(t, v, u, Claimed) <==> At(s, v, u, Claimed) {
      assert v != w ==> PhaseOf(t, v) == PhaseOf(s, v);
    }
  }

  ghost predicate Resting(s: State) { s.sent && forall w :: PhaseOf(s, w).Idle? }

  lemma {:induction false} RestingStays(s: State, events: seq<Event>, steady: set<nat>)
    requires Resting(s)
    ensures Resting(Run(s, events, steady)) && Run(s, events, steady).records == s.records
    decreases |events|
  {
    if events != [] {
      var t := Step(s, events[0], steady);
      forall w ensures PhaseOf(t, w).Idle? { assert PhaseOf(s, w).Idle?; }
      RestingStays(t, events[1..], steady);
    }
  }

  /** Main result: a task that is admitted after the closing does nothing: its
      worker never leaves its rest. */
  lemma {:induction false} LateTasksDoNothing(s: State, events: seq<Event>, w: nat, steady: set<nat>)
    requires s.sent && PhaseOf(s, w).Idle?
    ensures Run(s, events, steady).sent && PhaseOf(Run(s, events, steady), w).Idle?
    decreases |events|
  {
    if events != [] { LateTasksDoNothing(Step(s, events[0], steady), events[1..], w, steady); }
  }

  // ---- A stalled worker ----------------------------------------------------

  const FIRST_TASK := Task(None, None)

  function ClaimRun(w: nat): seq<Event> { [Admit(w, FIRST_TASK), List(w), CreateRecord(w, 1), Event.Claim(w, 1)] }

  lemma RunFour(s: State, a: Event, b: Event, c: Event, d: Event, steady: set<nat>)
    ensures Run(s, [a, b, c, d], steady) == Step(Step(Step(Step(s, a, steady), b, steady), c, steady), d, steady)
  {
    var s1, s2 := Step(s, a, steady), Step(Step(s, a, steady), b, steady);
    assert [a, b, c, d][1..] == [b, c, d] && [b, c, d][1..] == [c, d] && [c, d][1..] == [d] && [d][1..] == [];
    assert Run(s, [a, b, c, d], steady) == Run(s1, [b, c, d], steady);
    assert Run(s1, [b, c, d], steady) == Run(s2, [c, d], steady);
    assert Run(s2, [c, d], steady) == Run(Step(s2, c, steady), [d], steady);
    RunOne(Step(s2, c, steady), d, steady);
  }

  function OneUser(stage: Stage): Phase { Paging(FIRST_TASK, [1], false, map[1 := stage], false) }

  predicate Alike(s: State, t: State, w: nat, phase: Phase) {
    && t.active == s.active && t.published == s.published && t.sent == s.sent && t.now == s.now
    && PhaseOf(t, w) == phase && (w != 0 ==> PhaseOf(t, 0) == PhaseOf(s, 0)) && t.workers.Keys == s.workers.Keys + {w}
  }

  lemma ListsIt(s: State, w: nat, steady: set<nat>)
    requires s.active == [1] && FIRST_TASK in s.published && !s.sent && PhaseOf(s, w).Idle?
    ensures var t := Step(Step(s, Admit(w, FIRST_TASK), steady), List(w), steady);
      Alike(s, t, w, OneUser(Waiting)) && t.records == s.records
  {
  }

  lemma RecordsIt(s: State, w: nat, steady: set<nat>)
    requires PhaseOf(s, w) == OneUser(Waiting) && (1 in s.records ==> s.records[1].Claimable(s.now))
    ensures var t := Step(s, CreateRecord(w, 1), steady);
      Alike(s, t, w, OneUser(Recorded)) && t.records == Created(s, 1).records
  {
  }

  lemma TakesIt(s: State, w: nat, steady: set<nat>)
    requires PhaseOf(s, w) == OneUser(Recorded) && 1 in s.records && s.records[1].Claimable(s.now)
    ensures var t := Step(s, Event.Claim(w, 1), steady);
      Alike(s, t, w, OneUser(Claimed)) && t.records == s.records[1 := Record(Sending, s.now)]
  {
  }

  /** A worker claims the only user's record. */
  lemma ClaimsIt(s: State, w: nat, steady: set<nat>)
    requires s.active == [1] && FIRST_TASK in s.published && !s.sent && PhaseOf(s, w).Idle?
    requires 1 in s.records ==> s.records[1].Claimable(s.now)
    ensures var t := Run(s, ClaimRun(w), steady);
      Alike(s, t, w, OneUser(Claimed)) && t.records == s.records[1 := Record(Sending, s.now)]
  {
    RunFour(s, Admit(w, FIRST_TASK), List(w), CreateRecord(w, 1), Event.Claim(w, 1), steady);
    ListsIt(s, w, steady);
    var listed := Step(Step(s, Admit(w, FIRST_TASK), steady), List(w), steady);
    RecordsIt(listed, w, steady);
    TakesIt(Step(listed, CreateRecord(w, 1), steady), w, steady);
  }

  predicate TwoWorkers(s: State, first: Phase, second: Phase) {
    s.workers.Keys == {0, 1} && PhaseOf(s, 0) == first && PhaseOf(s, 1) == second
  }

  const ONLY: set<nat> := {1}

  /** Both workers have claimed the only user, the second after the first's claim
      went stale. */
  lemma ClaimedTwice() returns (events: seq<Event>)
    ensures var s := Run(Empty([1]), events, ONLY);
      TwoWorkers(s, OneUser(Claimed), OneUser(Claimed)) && s.records.Keys == {1}
  {
    var claimed := FirstClaim();
    var s := Run(Empty([1]), claimed, ONLY);
    var late := Tick(CLAIM_TIMEOUT_MS + 1);
    RunThen(Empty([1]), claimed, late, ONLY);
    var t := Step(s, late, ONLY);
    assert t.records[1].Claimable(t.now);
    ClaimsIt(t, 1, ONLY);
    RunConcat(Empty([1]), claimed + [late], ClaimRun(1), ONLY);
    events := claimed + [late] + ClaimRun(1);
  }

  lemma FirstClaim() returns (events: seq<Event>)
    ensures var s := Run(Empty([1]), events, ONLY);
      && s.active == [1] && s.published == {FIRST_TASK} && !s.sent && s.now == 0 && s.workers.Keys == {0}
      && PhaseOf(s, 0) == OneUser(Claimed) && s.records == map[1 := Record(Sending, 0)]
  {
    var s := Step(Empty([1]), Enqueue(None), ONLY);
    RunOne(Empty([1]), Enqueue(None), ONLY);
    ClaimsIt(s, 0, ONLY);
    RunConcat(Empty([1]), [Enqueue(None)], ClaimRun(0), ONLY);
    events := [Enqueue(None)] + ClaimRun(0);
  }

  lemma DeliveredLast(s: State)
    requires TwoWorkers(s, OneUser(Claimed), OneUser(Claimed)) && s.records.Keys == {1}
    ensures var t := Step(s, Finish(1, 1, Delivered), ONLY);
      TwoWorkers(t, OneUser(Claimed), OneUser(Over(SentNow))) && t.records == map[1 := Record(Sent, s.now)]
  {
  }

  /** The campaign is closed on user 1, whom worker 0 still has claimed. */
  predicate Stalled(s: State) {
    s.sent && s.sentOn.Some? && s.sentOn.value.Keys == {1} && TwoWorkers(s, OneUser(Claimed), Idle)
  }

  lemma ClosedLast(s: State)
    requires TwoWorkers(s, OneUser(Claimed), OneUser(Over(SentNow))) && s.records == map[1 := Record(Sent, s.now)]
    ensures Stalled(Step(Step(s, Count(1), ONLY), Close(1), ONLY))
  {
    assert AllSettled(s.records) && AllOver(PhaseOf(s, 1).stages);
    var t := Step(s, Count(1), ONLY);
    assert PhaseOf(t, 1) == Counted(FIRST_TASK, [1], false, s.records) && PhaseOf(t, 0) == OneUser(Claimed);
  }

  lemma ClosedWhileStalled() returns (events: seq<Event>)
    ensures Stalled(Run(Empty([1]), events, ONLY))
  {
    var before := ClaimedTwice();
    var s := Run(Empty([1]), before, ONLY);
    DeliveredLast(s);
    ClosedLast(Step(s, Finish(1, 1, Delivered), ONLY));
    RunThen(Empty([1]), before, Finish(1, 1, Delivered), ONLY);
    RunThen(Empty([1]), before + [Finish(1, 1, Delivered)], Count(1), ONLY);
    RunThen(Empty([1]), before + [Finish(1, 1, Delivered)] + [Count(1)], Close(1), ONLY);
    events := before + [Finish(1, 1, Delivered)] + [Count(1)] + [Close(1)];
  }

  predicate HasPending(records: Records) { exists u :: u in records && records[u].status.Pending? }

  /** Closed, with a pending record that nothing changes any more. */
  ghost predicate Abandoned(s: State) {
    s.sent && HasPending(s.records) && forall events :: Run(s, events, ONLY).records == s.records
  }

  lemma RequeuedLast(s: State)
    requires Stalled(s)
    ensures Abandoned(Step(Step(s, Finish(0, 1, Retry), ONLY), GiveUp(0), ONLY))
  {
    var t := Step(s, Finish(0, 1, Retry), ONLY);
    assert PhaseOf(t, 0).broken && t.records[1].status.Pending?;
    var u := Step(t, GiveUp(0), ONLY);
    forall w ensures PhaseOf(u, w).Idle? { assert w != 0 && w != 1 ==> w !in u.workers; }
    forall events ensures Run(u, events, ONLY).records == u.records { RestingStays(u, events, ONLY); }
  }

  predicate HasStatus(records: Records, u: nat, status: Status) { u in records && records[u].status == status }

  lemma ReopenedLast(s: State)
    requires TwoWorkers(s, OneUser(Claimed), OneUser(Over(SentNow))) && s.records == map[1 := Record(Sent, s.now)]
    ensures var t := Step(Step(s, Count(1), ONLY), Finish(0, 1, Retry), ONLY);
      && PhaseOf(t, 1) == Counted(FIRST_TASK, [1], false, s.records)
      && HasStatus(t.records, 1, Pending) && NoneClaimed(t, ONLY)
  {
    assert AllSettled(s.records) && AllOver(PhaseOf(s, 1).stages);
    var counted := Step(s, Count(1), ONLY);
    assert PhaseOf(counted, 1) == Counted(FIRST_TASK, [1], false, s.records) && PhaseOf(counted, 0) == OneUser(Claimed);
    var t := Step(counted, Finish(0, 1, Retry), ONLY);
    assert t.records[1].status.Pending?;
    forall w, u | u in ONLY ensures !At(t, w, u, Claimed) { assert w != 0 && w != 1 ==> w !in t.workers; }
  }

  /** Counted with user 1 settled, whose record was put back since. */
  ghost predicate ReopenedSince(s: State) {
    && PhaseOf(s, 1).Counted? && !PhaseOf(s, 1).hasMore && PhaseOf(s, 1).counts.Keys == ONLY
    && HasStatus(s.records, 1, Pending) && NoneClaimed(s, ONLY)
  }

  lemma ReopenedBeforeClosing() returns (events: seq<Event>)
    ensures ReopenedSince(Run(Empty([1]), events, ONLY))
  {
    var before := ClaimedTwice();
    DeliveredLast(Run(Empty([1]), before, ONLY));
    ReopenedLast(Step(Run(Empty([1]), before, ONLY), Finish(1, 1, Delivered), ONLY));
    RunThen(Empty([1]), before, Finish(1, 1, Delivered), ONLY);
    RunThen(Empty([1]), before + [Finish(1, 1, Delivered)], Count(1), ONLY);
    RunThen(Empty([1]), before + [Finish(1, 1, Delivered)] + [Count(1)], Finish(0, 1, Retry), ONLY);
    events := before + [Finish(1, 1, Delivered)] + [Count(1)] + [Finish(0, 1, Retry)];
  }

  lemma ClosedOverPending(s: State)
    requires ReopenedSince(s)
    ensures var closed := Step(s, Close(1), ONLY);
      && closed.sent && closed.sentOn == Some(PhaseOf(s, 1).counts) && closed.records == s.records
      && !StaySettled(closed, ONLY, ONLY)
  {
    assert Run(Step(s, Close(1), ONLY), [], ONLY) == Step(s, Close(1), ONLY);
    ClosedRecordsStay(s, 1, ONLY);
    assert !SettledAmong(s.records, ONLY);
  }

  /** The other half of the condition: the stalled worker puts the record back
      between the count and the closing, which closes over it. */
  lemma RecordReopensBeforeClosing()
    ensures exists events :: var s := Run(Empty([1]), events, ONLY); var closed := Step(s, Close(1), ONLY);
      && PhaseOf(s, 1).Counted? && NoneClaimed(s, ONLY)
      && closed.sent && closed.sentOn == Some(PhaseOf(s, 1).counts) && PhaseOf(s, 1).counts.Keys == ONLY
      && HasStatus(closed.records, 1, Pending) && !StaySettled(closed, ONLY, ONLY)
  {
    var events := ReopenedBeforeClosing();
    ClosedOverPending(Run(Empty([1]), events, ONLY));
  }

  /** A reachable closing that fails the condition: a worker that stalled past
      its claim, while another one served its recipient and closed the campaign,
      puts the record back to pending, and no task serves it again. */
  lemma StalledWorkerReopens()
    ensures exists before, after: seq<Event> :: var closed := Run(Empty([1]), before, ONLY);
      && closed.sent && closed.sentOn.Some? && !StaySettled(closed, closed.sentOn.value.Keys, ONLY)
      && Abandoned(Run(closed, after, ONLY))
  {
    var before := ClosedWhileStalled();
    var closed := Run(Empty([1]), before, ONLY);
    assert At(closed, 0, 1, Claimed);
    SettledForGood(closed, closed.sentOn.value.Keys, ONLY);
    RequeuedLast(closed);
    RunOne(closed, Finish(0, 1, Retry), ONLY);
    RunThen(closed, [Finish(0, 1, Retry)], GiveUp(0), ONLY);
    assert Abandoned(Run(closed, [Finish(0, 1, Retry)] + [GiveUp(0)], ONLY));
  }

  // ---- The processor on its collections ------------------------------------

  lemma {:induction false} RunThen(s: State, events: seq<Event>, e: Event, steady: set<nat>)
    ensures Run(s, events + [e], steady) == Step(Run(s, events, steady), e, steady)
    decreases |events|
  {
    if events == [] { assert [] + [e] == [e] && [e][1..] == []; }
    else {
      assert (events + [e])[1..] == events[1..] + [e];
      RunThen(Step(s, events[0], steady), events[1..], e, steady);
    }
  }

  lemma {:induction false} RunConcat(s: State, first: seq<Event>, rest: seq<Event>, steady: set<nat>)
    ensures Run(s, first + rest, steady) == Run(Run(s, first, steady), rest, steady)
    decreases |first|
  {
    if first == [] { assert first + rest == rest; }
    else {
      assert (first + rest)[1..] == first[1..] + rest;
      RunConcat(Step(s, first[0], steady), first[1..], rest, steady);
    }
  }

  lemma RunOne(s: State, e: Event, steady: set<nat>)
    ensures Run(s, [e], steady) == Step(s, e, steady)
  {
  }

  datatype BatchResult =
    | AlreadyComplete
    | PageComplete(sent: nat, failed: nat, skipped: nat, next: nat)
    | Complete(sent: nat, failed: nat, skipped: nat)
    | RetryPage

  const CONCURRENCY := 12

  predicate IsOther(e: Event, w: nat) {
    match e
    case SetUsers(_) => true
    case Tick(_) => true
    case Enqueue(_) => true
    case _ => e.worker != w
  }

  predicate Others(events: seq<Event>, w: nat) { forall e :: e in events ==> IsOther(e, w) }

  /** An event of the worker `w`, with what sending comes to. */
  predicate OwnEvent(e: Event, w: nat, deliver: nat -> SendResult) {
    !IsOther(e, w) && !e.Crash? && (e.Finish? ==> e.result == deliver(e.user))
  }

  /** Events of `w` and, in between, what `others` do. */
  ghost predicate Among(trace: seq<Event>, w: nat, deliver: nat -> SendResult, others: nat -> seq<Event>) {
    forall e :: e in trace ==> OwnEvent(e, w, deliver) || exists k: nat :: e in others(k)
  }

  lemma ThenOwn(s: State, trace: seq<Event>, e: Event, w: nat, deliver: nat -> SendResult, others: nat -> seq<Event>,
                steady: set<nat>)
    requires Among(trace, w, deliver, others) && OwnEvent(e, w, deliver)
    ensures Run(s, trace + [e], steady) == Step(Run(s, trace, steady), e, steady)
    ensures Among(trace + [e], w, deliver, others)
  {
    RunThen(s, trace, e, steady);
  }

  lemma ThenOthers(s: State, trace: seq<Event>, k: nat, w: nat, deliver: nat -> SendResult, others: nat -> seq<Event>,
                   steady: set<nat>)
    requires Among(trace, w, deliver, others)
    ensures Run(s, trace + others(k), steady) == Run(Run(s, trace, steady), others(k), steady)
    ensures Among(trace + others(k), w, deliver, others)
  {
    RunConcat(s, trace, others(k), steady);
  }

  lemma ThenMore(s: State, trace: seq<Event>, more: seq<Event>, w: nat, deliver: nat -> SendResult,
                 others: nat -> seq<Event>, steady: set<nat>)
    requires Among(trace, w, deliver, others) && Among(more, w, deliver, others)
    ensures Run(s, trace + more, steady) == Run(Run(s, trace, steady), more, steady)
    ensures Among(trace + more, w, deliver, others)
  {
    RunConcat(s, trace, more, steady);
  }

  /** What others cannot do to a page that waits. */
  predicate Undisturbed(s: State, t: State, w: nat) {
    && PhaseOf(t, w) == PhaseOf(s, w) && s.published <= t.published && (s.sent ==> t.sent)
    && (Ascending(s.active) ==> Ascending(t.active))
  }

  lemma OtherStep(s: State, e: Event, w: nat, steady: set<nat>)
    requires IsOther(e, w)
    ensures Undisturbed(s, Step(s, e, steady), w)
  {
  }

  lemma {:induction false} OthersRun(s: State, events: seq<Event>, w: nat, steady: set<nat>)
    requires Others(events, w)
    ensures Undisturbed(s, Run(s, events, steady), w)
    decreases |events|
  {
    if events != [] {
      OtherStep(s, events[0], w, steady);
      OthersRun(Step(s, events[0], steady), events[1..], w, steady);
    }
  }

  lemma PageAscends(users: seq<nat>, task: Task)
    requires Ascending(users)
    ensures Ascending(Page(users, task))
  {
    AboveAscends(users, task.cursor);
  }

  // ---- Serving a page --------------------------------------------------------

  function Ended(stages: map<nat, Stage>, how: Outcome): set<nat> { set u | u in stages && stages[u] == Over(how) }

  lemma EndedStep(stages: map<nat, Stage>, u: nat, stage: Stage, how: Outcome)
    requires u in stages && !stages[u].Over?
    ensures |Ended(stages[u := stage], how)| == |Ended(stages, how)| + if stage == Over(how) then 1 else 0
  {
    var before, now := Ended(stages, how), Ended(stages[u := stage], how);
    assert u !in before && now == if stage == Over(how) then before + {u} else before;
  }

  /** The counters say how the recipients ended. */
  predicate Tallied(stages: map<nat, Stage>, done: nat, failed: nat, skipped: nat) {
    && done == |Ended(stages, SentNow)|
    && failed == |Ended(stages, FailedNow)| + |Ended(stages, FailedBefore)|
    && skipped == |Ended(stages, SentBefore)|
  }

  /** The recipients before the cursor are in flight or over; the rest wait. */
  ghost predicate Serving(p: Phase, page: seq<nat>, cursor: nat, flying: set<nat>) {
    && p.Paging? && cursor <= |page| && Ascending(page) && (forall u :: u in p.stages <==> u in page)
    && (forall u :: u in flying ==> u in page[..cursor] && !p.stages[u].Over?)
    && (forall k :: cursor <= k < |page| ==> p.stages[page[k]].Waiting?)
    && (!p.broken ==> forall k :: 0 <= k < cursor ==> page[k] in flying || p.stages[page[k]].Over?)
  }

  /** Each recipient an unbroken page has taken is in flight or counted. */
  predicate Accounted(p: Phase, cursor: nat, flying: set<nat>, done: nat, failed: nat, skipped: nat)
    requires p.Paging?
  {
    Tallied(p.stages, done, failed, skipped) && (!p.broken ==> done + failed + skipped + |flying| == cursor)
  }

  lemma TakeNext(p: Phase, page: seq<nat>, cursor: nat, flying: set<nat>)
    requires Serving(p, page, cursor, flying) && cursor < |page|
    ensures page[cursor] !in flying && Serving(p, page, cursor + 1, flying + {page[cursor]})
  {
    assert forall k :: 0 <= k < cursor ==> page[k] < page[cursor];
    assert page[..cursor + 1] == page[..cursor] + [page[cursor]];
  }

  /** The page `first` as it is being served. */
  ghost predicate Underway(first: Phase, p: Phase, page: seq<nat>, cursor: nat, flying: set<nat>,
                           done: nat, failed: nat, skipped: nat)
    requires first.Paging?
  {
    && Serving(p, page, cursor, flying) && |flying| <= CONCURRENCY
    && Accounted(p, cursor, flying, done, failed, skipped)
    && p == first.(stages := p.stages, broken := p.broken)
  }

  lemma TakeUnderway(first: Phase, p: Phase, page: seq<nat>, cursor: nat, flying: set<nat>,
                     done: nat, failed: nat, skipped: nat)
    requires first.Paging? && Underway(first, p, page, cursor, flying, done, failed, skipped)
    requires cursor < |page| && |flying| < CONCURRENCY
    ensures Underway(first, p, page, cursor + 1, flying + {page[cursor]}, done, failed, skipped)
  {
    TakeNext(p, page, cursor, flying);
    TakeAccounts(p, page, cursor, flying, done, failed, skipped);
  }

  lemma TakeAccounts(p: Phase, page: seq<nat>, cursor: nat, flying: set<nat>, done: nat, failed: nat, skipped: nat)
    requires p.Paging? && cursor < |page| && page[cursor] !in flying &&
             Accounted(p, cursor, flying, done, failed, skipped)
    ensures Accounted(p, cursor + 1, flying + {page[cursor]}, done, failed, skipped)
    ensures |flying + {page[cursor]}| == |flying| + 1
  {
  }

  /** In flight at one of the stages. */
  function FlyingAt(p: Phase, flying: set<nat>, stage: Stage): set<nat>
    requires p.Paging?
  {
    set u | u in flying && u in p.stages && p.stages[u] == stage
  }

  /** A turn of `u`: it moves on and stays in flight, or its flight ends. */
  predicate Turned(p: Phase, q: Phase, u: nat, stays: bool)
    requires p.Paging? && u in p.stages
  {
    && q.Paging? && q.stages.Keys == p.stages.Keys &&
       (forall v :: v in p.stages && v != u ==> q.stages[v] == p.stages[v])
    && (p.broken ==> q.broken)
    && if stays then (p.stages[u].Waiting? && q.stages[u].Recorded?) || (p.stages[u].Recorded? && q.stages[u].Claimed?)
       else q.stages[u].Over? || q.broken
  }

  /** What one operation does to the page, and how it left the recipient. */
  predicate TurnOf(p: Phase, q: Phase, u: nat, how: Option<Outcome>, fails: bool)
    requires p.Paging? && u in p.stages
  {
    && Turned(p, q, u, how.None? && !fails)
    && q == p.(stages := p.stages[u := q.stages[u]], broken := q.broken)
    && (how.Some? ==> q.stages[u] == Over(how.value)) && (how.None? ==> !q.stages[u].Over?)
    && (how == Some(Taken) || how == Some(Requeued) || fails ==> q.broken) && (fails ==> how.None?)
  }

  function Landed(flying: set<nat>, u: nat, stays: bool): set<nat> { if stays then flying else flying - {u} }

  lemma TurnServes(p: Phase, q: Phase, page: seq<nat>, cursor: nat, flying: set<nat>, u: nat, stays: bool)
    requires Serving(p, page, cursor, flying) && u in flying && Turned(p, q, u, stays)
    ensures Serving(q, page, cursor, Landed(flying, u, stays))
  {
    forall k | cursor <= k < |page| ensures page[k] != u { assert page[k] !in page[..cursor]; }
  }

  /** Fewer turns are left: of those before the record, before the claim, or before the result. */
  predicate Shrinks(p: Phase, flying: set<nat>, q: Phase, rest: set<nat>)
    requires p.Paging? && q.Paging?
  {
    var waiting, recorded := |FlyingAt(p, flying, Waiting)|, |FlyingAt(p, flying, Recorded)|;
    var waits, records := |FlyingAt(q, rest, Waiting)|, |FlyingAt(q, rest, Recorded)|;
    || waits < waiting
    || (waits == waiting && records < recorded)
    || (waits == waiting && records == recorded && |FlyingAt(q, rest, Claimed)| < |FlyingAt(p, flying, Claimed)|)
  }

  lemma FlyingWithout(p: Phase, q: Phase, flying: set<nat>, u: nat, stays: bool, stage: Stage)
    requires p.Paging? && (forall v :: v in flying ==> v in p.stages) && u in flying && Turned(p, q, u, stays)
    requires !stays || q.stages[u] != stage
    ensures |FlyingAt(q, Landed(flying, u, stays), stage)| ==
            |FlyingAt(p, flying, stage)| - if p.stages[u] == stage then 1 else 0
  {
    assert FlyingAt(q, Landed(flying, u, stays), stage) == FlyingAt(p, flying, stage) - {u};
  }

  lemma TurnShrinks(p: Phase, q: Phase, page: seq<nat>, cursor: nat, flying: set<nat>, u: nat, stays: bool)
    requires Serving(p, page, cursor, flying) && u in flying && Turned(p, q, u, stays)
    ensures Shrinks(p, flying, q, Landed(flying, u, stays))
  {
    assert forall v :: v in flying ==> v in p.stages;
    FlyingWithout(p, q, flying, u, stays, Waiting);
    if !p.stages[u].Waiting? { FlyingWithout(p, q, flying, u, stays, Recorded); }
    if p.stages[u].Claimed? { FlyingWithout(p, q, flying, u, stays, Claimed); }
  }

  lemma FreshIsServing(p: Phase)
    requires p.Paging? && Ascending(p.page) && p.stages == Fresh(p.page)
    ensures Serving(p, p.page, 0, {}) && Accounted(p, 0, {}, 0, 0, 0)
  {
    forall how ensures Ended(p.stages, how) == {} { }
    assert Ended(p.stages, SentNow) == Ended(p.stages, FailedNow) == Ended(p.stages, FailedBefore) == {};
    assert Ended(p.stages, SentBefore) == {};
  }

  function Adds(how: Option<Outcome>, outcome: Outcome): nat { if how == Some(outcome) then 1 else 0 }

  lemma TurnTallies(p: Phase, q: Phase, u: nat, how: Option<Outcome>, fails: bool, done: nat, failed: nat, skipped: nat)
    requires p.Paging? && u in p.stages && !p.stages[u].Over? && TurnOf(p, q, u, how, fails)
    requires Tallied(p.stages, done, failed, skipped)
    ensures Tallied(q.stages, done + Adds(how, SentNow), failed + Adds(how, FailedNow) + Adds(how, FailedBefore),
                    skipped + Adds(how, SentBefore))
  {
    EndedStep(p.stages, u, q.stages[u], SentNow);
    EndedStep(p.stages, u, q.stages[u], FailedNow);
    EndedStep(p.stages, u, q.stages[u], FailedBefore);
    EndedStep(p.stages, u, q.stages[u], SentBefore);
  }

  lemma Landing(flying: set<nat>, u: nat, stays: bool)
    requires u in flying
    ensures |Landed(flying, u, stays)| == |flying| - if stays then 0 else 1
  {
  }

  /** Every end that does not break the page is counted once. */
  lemma OneAdds(how: Option<Outcome>)
    ensures Adds(how, SentNow) + (Adds(how, FailedNow) + Adds(how, FailedBefore)) + Adds(how, SentBefore) ==
            if how.None? || how == Some(Taken) || how == Some(Requeued) then 0 else 1
  {
    match how
    case None =>
    case Some(SentBefore) =>
    case Some(SentNow) =>
    case Some(FailedBefore) =>
    case Some(FailedNow) =>
    case Some(_) =>
  }

  lemma TurnAccounts(p: Phase, q: Phase, cursor: nat, flying: set<nat>, u: nat, how: Option<Outcome>, fails: bool,
                     done: nat, failed: nat, skipped: nat)
    requires p.Paging? && u in p.stages && !p.stages[u].Over? && u in flying && TurnOf(p, q, u, how, fails)
    requires Accounted(p, cursor, flying, done, failed, skipped)
    ensures Accounted(q, cursor, Landed(flying, u, how.None? && !fails), done + Adds(how, SentNow),
                      failed + Adds(how, FailedNow) + Adds(how, FailedBefore), skipped + Adds(how, SentBefore))
  {
    TurnTallies(p, q, u, how, fails, done, failed, skipped);
    Landing(flying, u, how.None? && !fails);
    OneAdds(how);
  }

  lemma AllServed(p: Phase, task: Task, page: seq<nat>, done: nat, failed: nat, skipped: nat)
    requires Serving(p, page, |page|, {}) && Accounted(p, |page|, {}, done, failed, skipped)
    requires p.task == task && p.page == page && !p.broken
    ensures PageServed(p, task, done, failed, skipped)
  {
    forall u | u in p.stages ensures p.stages[u].Over? {
      var k :| 0 <= k < |page| && page[k] == u;
    }
  }

  lemma TurnDone(p: Phase, q: Phase, page: seq<nat>, cursor: nat, flying: set<nat>, u: nat, how: Option<Outcome>,
                 fails: bool)
    requires Serving(p, page, cursor, flying) && u in flying && TurnOf(p, q, u, how, fails)
    ensures var rest := Landed(flying, u, how.None? && !fails);
      Serving(q, page, cursor, rest) && Shrinks(p, flying, q, rest) && |rest| <= |flying|
  {
    TurnServes(p, q, page, cursor, flying, u, how.None? && !fails);
    TurnShrinks(p, q, page, cursor, flying, u, how.None? && !fails);
    Landing(flying, u, how.None? && !fails);
  }

  /** A page all of whose recipients ended, with its counters. */
  ghost predicate PageServed(p: Phase, task: Task, done: nat, failed: nat, skipped: nat) {
    && p.Paging? && p.task == task && !p.broken && AllOver(p.stages)
    && Tallied(p.stages, done, failed, skipped) && done + failed + skipped == |p.page|
  }

  /** The collections, and where every page stands. */
  class BroadcastProcessor {
    const steady: set<nat>
    var active: seq<nat>
    var records: Records
    var published: set<Task>
    var workers: map<nat, Phase>
    var sent: bool
    var sentOn: Option<Records>
    var now: nat

    function Model(): State
      reads this
    {
      State(active, records, published, workers, sent, sentOn, now)
    }

    constructor (users: seq<nat>, steady: set<nat>)
      ensures Model() == Empty(users) && this.steady == steady
    {
      this.steady := steady;
      active, records, published, workers, sent, sentOn, now := users, map[], {}, map[], false, None, 0;
    }

    /** An `await`: other pages, other tasks and the users go on. */
    method Await(w: nat, others: seq<Event>)
      requires Others(others, w)
      modifies this
      ensures Model() == Run(old(Model()), others, steady) && Undisturbed(old(Model()), Model(), w)
    {
      OthersRun(Model(), others, w, steady);
      var s := Run(Model(), others, steady);
      active, records, published, workers := s.active, s.records, s.published, s.workers;
      sent, sentOn, now := s.sent, s.sentOn, s.now;
    }

    method Goes(w: nat, phase: Phase)
      modifies this`workers
      ensures workers == old(workers)[w := phase]
    {
      workers := workers[w := phase];
    }

    // ---- One database operation each -----------------------------------------

    /** Reads the campaign. */
    method ReadCampaign(w: nat, task: Task)
      requires PhaseOf(Model(), w).Idle? && task in published && !sent
      modifies this`workers
      ensures Model() == Step(old(Model()), Admit(w, task), steady) && PhaseOf(Model(), w) == Admitted(task)
    {
      Goes(w, Admitted(task));
    }

    /** Reads the page's users. */
    method ListUsers(w: nat, task: Task) returns (page: seq<nat>, hasMore: bool)
      requires PhaseOf(Model(), w) == Admitted(task) && Ascending(active)
      modifies this`workers
      ensures Model() == Step(old(Model()), List(w), steady)
      ensures page == Page(active, task) && hasMore == HasMore(active, task)
      ensures PhaseOf(Model(), w) == Paging(task, page, hasMore, Fresh(page), false)
      ensures Ascending(page) && (hasMore ==> page != [])
    {
      page, hasMore := Page(active, task), HasMore(active, task);
      PageAscends(active, task);
      MoreMeansSome(active, task);
      Goes(w, Paging(task, page, hasMore, Fresh(page), false));
    }

    method CreateDeliveryRecord(w: nat, user: nat) returns (status: Status)
      requires At(Model(), w, user, Waiting)
      modifies this`records, this`workers
      ensures Model() == Step(old(Model()), CreateRecord(w, user), steady)
      ensures PhaseOf(Model(), w) == Advanced(old(PhaseOf(Model(), w)), user, StageFor(status))
      ensures status == if user in old(records) then old(records)[user].status else Pending
      ensures records == if user in old(records) then old(records) else old(records)[user := Record(Pending, now)]
    {
      if user !in records { records := records[user := Record(Pending, now)]; }
      status := records[user].status;
      Goes(w, Advanced(PhaseOf(Model(), w), user, StageFor(status)));
    }

    method ClaimRecord(w: nat, user: nat) returns (claimed: bool)
      requires At(Model(), w, user, Recorded)
      modifies this`records, this`workers
      ensures Model() == Step(old(Model()), Event.Claim(w, user), steady)
      ensures records == if claimed then old(records)[user := Record(Sending, now)] else old(records)
      ensures var p := old(PhaseOf(Model(), w));
        PhaseOf(Model(), w) ==
        if claimed then Advanced(p, user, Claimed) else Advanced(p.(broken := true), user, Over(Taken))
    {
      var p := PhaseOf(Model(), w);
      claimed := user in records && records[user].Claimable(now);
      if claimed { records := records[user := Record(Sending, now)]; }
      Goes(w, if claimed then Advanced(p, user, Claimed) else Advanced(p.(broken := true), user, Over(Taken)));
    }

    method SaveResult(w: nat, user: nat, result: SendResult)
      requires At(Model(), w, user, Claimed)
      modifies this`records, this`workers
      ensures Model() == Step(old(Model()), Event.Finish(w, user, result), steady)
      ensures var p := old(PhaseOf(Model(), w));
        PhaseOf(Model(), w) == Advanced(p.(broken := p.broken || result.Retry?), user, Over(OutcomeOf(result)))
    {
      var p := PhaseOf(Model(), w);
      records := records[user := Record(StatusAfter(result), now)];
      Goes(w, Advanced(p.(broken := p.broken || result.Retry?), user, Over(OutcomeOf(result))));
    }

    /** The counting query; a last page with records outstanding ends here. */
    method CountRecords(w: nat) returns (ok: bool)
      requires var p := PhaseOf(Model(), w); p.Paging? && !p.broken && AllOver(p.stages)
      modifies this`workers
      ensures Model() == Step(old(Model()), Count(w), steady)
      ensures var p := old(PhaseOf(Model(), w));
        && ok == (p.hasMore || AllSettled(records))
        && PhaseOf(Model(), w) == if ok then Counted(p.task, p.page, p.hasMore, records) else Idle
    {
      var p := PhaseOf(Model(), w);
      ok := p.hasMore || AllSettled(records);
      Goes(w, if ok then Counted(p.task, p.page, p.hasMore, records) else Idle);
    }

    method CloseCampaign(w: nat)
      requires var p := PhaseOf(Model(), w); p.Counted? && (p.hasMore ==> p.page != [])
      modifies this`sent, this`sentOn, this`workers
      ensures Model() == Step(old(Model()), Event.Close(w), steady)
      ensures var p := old(PhaseOf(Model(), w));
        && (!p.hasMore ==> sent && sentOn == Some(p.counts))
        && PhaseOf(Model(), w) == if p.hasMore then Publishing(p.page[|p.page| - 1], p.task.limit) else Idle
    {
      var p := PhaseOf(Model(), w);
      if p.hasMore { Goes(w, Publishing(p.page[|p.page| - 1], p.task.limit)); }
      else {
        sent, sentOn := true, Some(p.counts);
        Goes(w, Idle);
      }
    }

    // ---- A page, with anything else at each `await` ----------------------------

    /** The next operation for one recipient; `fails`: the database fails it. */
    method Turn(w: nat, u: nat, deliver: nat -> SendResult, fails: bool) returns (how: Option<Outcome>, ghost e: Event)
      requires var p := PhaseOf(Model(), w); p.Paging? && u in p.stages && !p.stages[u].Over?
      modifies this`records, this`workers
      ensures Model() == Step(old(Model()), e, steady) && OwnEvent(e, w, deliver)
      ensures TurnOf(old(PhaseOf(Model(), w)), PhaseOf(Model(), w), u, how, fails)
    {
      how := None;
      if fails {
        e := Break(w, u);
        Goes(w, PhaseOf(Model(), w).(broken := true));
        return;
      }
      match PhaseOf(Model(), w).stages[u] {
        case Waiting =>
          var status := CreateDeliveryRecord(w, u);
          e := CreateRecord(w, u);
          if status.Sent? { how := Some(SentBefore); } else if status.Failed? { how := Some(FailedBefore); }
        case Recorded =>
          var claimed := ClaimRecord(w, u);
          e := Event.Claim(w, u);
          if !claimed { how := Some(Taken); }
        case Claimed =>
          SaveResult(w, u, deliver(u));
          e := Event.Finish(w, u, deliver(u));
          how := Some(OutcomeOf(deliver(u)));
      }
    }

    method TakeTurn(w: nat, u: nat, k: nat, deliver: nat -> SendResult, fails: bool, others: nat -> seq<Event>)
      returns (how: Option<Outcome>, ghost trace: seq<Event>)
      requires forall k :: Others(others(k), w)
      requires var p := PhaseOf(Model(), w); p.Paging? && u in p.stages && !p.stages[u].Over?
      modifies this
      ensures Model() == Run(old(Model()), trace, steady) && Among(trace, w, deliver, others)
      ensures TurnOf(old(PhaseOf(Model(), w)), PhaseOf(Model(), w), u, how, fails) && old(published) <= published
    {
      ghost var start := Model();
      Await(w, others(k));
      trace := others(k);
      ghost var e;
      how, e := Turn(w, u, deliver, fails);
      ThenOwn(start, trace, e, w, deliver, others, steady);
      trace := trace + [e];
    }

    /** The turn of a recipient in flight, with what it means for the page. */
    method ServeOne(w: nat, ghost first: Phase, ghost page: seq<nat>, ghost cursor: nat, ghost flying: set<nat>, u: nat,
                    k: nat, deliver: nat -> SendResult, fails: bool, others: nat -> seq<Event>,
                    ghost done: nat, ghost failed: nat, ghost skipped: nat)
      returns (how: Option<Outcome>, ghost trace: seq<Event>)
      requires u in flying && first.Paging? && forall k :: Others(others(k), w)
      requires Underway(first, PhaseOf(Model(), w), page, cursor, flying, done, failed, skipped)
      modifies this
      ensures Model() == Run(old(Model()), trace, steady) && Among(trace, w, deliver, others) &&
              old(published) <= published
      ensures var p, q := old(PhaseOf(Model(), w)), PhaseOf(Model(), w);
        var rest := Landed(flying, u, how.None? && !fails);
        && Underway(first, q, page, cursor, rest, done + Adds(how, SentNow),
                    failed + (Adds(how, FailedNow) + Adds(how, FailedBefore)), skipped + Adds(how, SentBefore))
        && Shrinks(p, flying, q, rest)
    {
      ghost var p := PhaseOf(Model(), w);
      how, trace := TakeTurn(w, u, k, deliver, fails, others);
      TurnDone(p, PhaseOf(Model(), w), page, cursor, flying, u, how, fails);
      TurnAccounts(p, PhaseOf(Model(), w), cursor, flying, u, how, fails, done, failed, skipped);
    }

    /** The next recipient takes off, at most twelve at a time and none after a
        failure; otherwise one of those in flight, any one, has its turn. */
    method TakeOrServe(w: nat, ghost first: Phase, page: seq<nat>, cursor: nat, flying: set<nat>, k: nat,
                       deliver: nat -> SendResult, fails: bool, others: nat -> seq<Event>,
                       done: nat, failed: nat, skipped: nat)
      returns (next: nat, aloft: set<nat>, sentNow: nat, failures: nat, sentBefore: nat, ghost trace: seq<Event>)
      requires first.Paging? && forall k :: Others(others(k), w)
      requires Underway(first, PhaseOf(Model(), w), page, cursor, flying, done, failed, skipped)
      requires flying != {} || (!PhaseOf(Model(), w).broken && cursor < |page|)
      modifies this
      ensures Model() == Run(old(Model()), trace, steady) && Among(trace, w, deliver, others) &&
              old(published) <= published
      ensures Underway(first, PhaseOf(Model(), w), page, next, aloft, sentNow, failures, sentBefore)
      ensures cursor < next || (cursor == next && Shrinks(old(PhaseOf(Model(), w)), flying, PhaseOf(Model(), w), aloft))
    {
      if !PhaseOf(Model(), w).broken && cursor < |page| && |flying| < CONCURRENCY {
        TakeUnderway(first, PhaseOf(Model(), w), page, cursor, flying, done, failed, skipped);
        return cursor + 1, flying + {page[cursor]}, done, failed, skipped, [];
      }
      var u :| u in flying;
      var how;
      how, trace := ServeOne(w, first, page, cursor, flying, u, k, deliver, fails, others, done, failed, skipped);
      next, aloft := cursor, Landed(flying, u, how.None? && !fails);
      sentNow, sentBefore := done + Adds(how, SentNow), skipped + Adds(how, SentBefore);
      failures := failed + (Adds(how, FailedNow) + Adds(how, FailedBefore));
    }

    /** Serves the recipients of the listed page; after a failure those in flight
        still end. */
    method ServeRecipients(w: nat, deliver: nat -> SendResult, fails: nat -> bool, others: nat -> seq<Event>)
      returns (done: nat, failed: nat, skipped: nat, ghost cursor: nat, ghost trace: seq<Event>)
      requires forall k :: Others(others(k), w)
      requires var p := PhaseOf(Model(), w); p.Paging? && Ascending(p.page) && !p.broken && p.stages == Fresh(p.page)
      modifies this
      ensures Model() == Run(old(Model()), trace, steady) && Among(trace, w, deliver, others) &&
              old(published) <= published
      ensures var p, q := old(PhaseOf(Model(), w)), PhaseOf(Model(), w);
        Underway(p, q, p.page, cursor, {}, done, failed, skipped) && (q.broken || cursor == |p.page|)
    {
      ghost var start, p := Model(), PhaseOf(Model(), w);
      ghost var q := p;
      var page, next, turn := PhaseOf(Model(), w).page, 0, 0;
      var flying: set<nat> := {};
      done, failed, skipped, trace := 0, 0, 0, [];
      FreshIsServing(p);
      while flying != {} || (!PhaseOf(Model(), w).broken && next < |page|)
        invariant Model() == Run(start, trace, steady) && Among(trace, w, deliver, others)
        invariant q == PhaseOf(Model(), w) && old(published) <= published
        invariant Underway(p, q, page, next, flying, done, failed, skipped)
        decreases |page| - next, |FlyingAt(q, flying, Waiting)|, |FlyingAt(q, flying, Recorded)|,
                  |FlyingAt(q, flying, Claimed)|
      {
        ghost var more;
        next, flying, done, failed, skipped, more :=
          TakeOrServe(w, p, page, next, flying, turn, deliver, fails(turn), others, done, failed, skipped);
        ThenMore(start, trace, more, w, deliver, others, steady);
        trace, q, turn := trace + more, PhaseOf(Model(), w), turn + 1;
      }
      cursor := next;
    }

    /** A page with a failure is given up when those in flight have ended. */
    method ServePage(w: nat, deliver: nat -> SendResult, fails: nat -> bool, others: nat -> seq<Event>)
      returns (ok: bool, done: nat, failed: nat, skipped: nat, ghost trace: seq<Event>)
      requires forall k :: Others(others(k), w)
      requires var p := PhaseOf(Model(), w); p.Paging? && Ascending(p.page) && !p.broken && p.stages == Fresh(p.page)
      modifies this
      ensures Model() == Run(old(Model()), trace, steady) && Among(trace, w, deliver, others) &&
              old(published) <= published
      ensures var p, q := old(PhaseOf(Model(), w)), PhaseOf(Model(), w);
        && (ok ==> PageServed(q, p.task, done, failed, skipped) && q == p.(stages := q.stages))
        && (!ok ==> q.Idle?)
    {
      ghost var start, p := Model(), PhaseOf(Model(), w);
      ghost var cursor;
      done, failed, skipped, cursor, trace := ServeRecipients(w, deliver, fails, others);
      ok := !PhaseOf(Model(), w).broken;
      if ok { AllServed(PhaseOf(Model(), w), p.task, p.page, done, failed, skipped); }
      else {
        Goes(w, Idle);
        ThenOwn(start, trace, GiveUp(w), w, deliver, others, steady);
        trace := trace + [GiveUp(w)];
      }
    }

    /** One page task: `served` is the run up to its counting query. */
    method ProcessBatch(w: nat, task: Task, deliver: nat -> SendResult, fails: nat -> bool, others: nat -> seq<Event>)
      returns (r: BatchResult, ghost served: seq<Event>, ghost trace: seq<Event>)
      requires Ascending(active) && task in published && PhaseOf(Model(), w).Idle? && forall k :: Others(others(k), w)
      modifies this
      ensures Model() == Run(old(Model()), trace, steady) && Among(trace, w, deliver, others) && served <= trace
      ensures r == AlreadyComplete <==> old(sent)
      ensures var p := PhaseOf(Run(old(Model()), served, steady), w);
        && (r.PageComplete? ==> PageServed(p, task, r.sent, r.failed, r.skipped) && p.hasMore && r.next in p.page)
        && (r.Complete? ==> PageServed(p, task, r.sent, r.failed, r.skipped) && !p.hasMore)
      ensures r.Complete? ==> sent && sentOn.Some? && AllSettled(sentOn.value)
      ensures PhaseOf(Model(), w) == if r.PageComplete? then Publishing(r.next, task.limit) else Idle
      ensures old(published) <= published
    {
      served, trace := [], [];
      if sent { return AlreadyComplete, served, trace; }
      ghost var start := Model();
      ghost var more;
      trace := OpenPage(w, task, deliver, others);
      var ok, done, failed, skipped;
      ok, done, failed, skipped, more := ServePage(w, deliver, fails, others);
      ThenMore(start, trace, more, w, deliver, others, steady);
      trace := trace + more;
      served := trace;
      if !ok { return RetryPage, served, trace; }
      var next;
      ok, next, more := ClosePage(w, deliver, others);
      ThenMore(start, trace, more, w, deliver, others, steady);
      trace := trace + more;
      if !ok { return RetryPage, served, trace; }
      r := match next
        case Some(cursor) => PageComplete(done, failed, skipped, cursor)
        case None => Complete(done, failed, skipped);
    }

    /** Reads the campaign, then the page's users. */
    method OpenPage(w: nat, task: Task, deliver: nat -> SendResult, others: nat -> seq<Event>)
      returns (ghost trace: seq<Event>)
      requires Ascending(active) && task in published && PhaseOf(Model(), w).Idle? && !sent
      requires forall k :: Others(others(k), w)
      modifies this
      ensures Model() == Run(old(Model()), trace, steady) && Among(trace, w, deliver, others)
      ensures var p := PhaseOf(Model(), w);
        && p.Paging? && p.task == task && Ascending(p.page) && !p.broken && p.stages == Fresh(p.page)
        && (p.hasMore ==> p.page != [])
      ensures old(published) <= published && Ascending(active)
    {
      ghost var start := Model();
      ReadCampaign(w, task);
      ThenOwn(start, [], Admit(w, task), w, deliver, others, steady);
      trace := [] + [Admit(w, task)];
      Await(w, others(0));
      ThenOthers(start, trace, 0, w, deliver, others, steady);
      trace := trace + others(0);
      var _, _ := ListUsers(w, task);
      ThenOwn(start, trace, List(w), w, deliver, others, steady);
      trace := trace + [List(w)];
    }

    /** The counting query and the update of the campaign. */
    method ClosePage(w: nat, deliver: nat -> SendResult, others: nat -> seq<Event>)
      returns (ok: bool, next: Option<nat>, ghost trace: seq<Event>)
      requires forall k :: Others(others(k), w)
      requires var p := PhaseOf(Model(), w); p.Paging? && !p.broken && AllOver(p.stages) && (p.hasMore ==> p.page != [])
      modifies this
      ensures Model() == Run(old(Model()), trace, steady) && Among(trace, w, deliver, others)
      ensures var p := old(PhaseOf(Model(), w));
        && (ok ==> (next.Some? <==> p.hasMore) && (next.Some? ==> next.value in p.page))
        && (ok && !p.hasMore ==> sent && sentOn.Some? && AllSettled(sentOn.value))
        && PhaseOf(Model(), w) == if ok && next.Some? then Publishing(next.value, p.task.limit) else Idle
      ensures old(published) <= published
    {
      ghost var start := Model();
      var p := PhaseOf(Model(), w);
      Await(w, others(0));
      trace := others(0);
      ok := CountRecords(w);
      ThenOwn(start, trace, Count(w), w, deliver, others, steady);
      trace := trace + [Count(w)];
      next := None;
      if !ok { return; }
      Await(w, others(1));
      ThenOthers(start, trace, 1, w, deliver, others, steady);
      trace := trace + others(1);
      CloseCampaign(w);
      ThenOwn(start, trace, Event.Close(w), w, deliver, others, steady);
      trace := trace + [Event.Close(w)];
      if p.hasMore { next := Some(p.page[|p.page| - 1]); }
    }

    /** The task around a page: a page to be retried is published again as it is,
        a completed one publishes its successor. */
    method ProcessTask(w: nat, task: Task, deliver: nat -> SendResult, fails: nat -> bool, others: nat -> seq<Event>)
      returns (r: BatchResult, ghost trace: seq<Event>)
      requires Ascending(active) && task in published && PhaseOf(Model(), w).Idle? && forall k :: Others(others(k), w)
      modifies this
      ensures Model() == Run(old(Model()), trace, steady) && Among(trace, w, deliver, others)
      ensures PhaseOf(Model(), w).Idle? && task in published
      ensures r.PageComplete? ==> NextTask(r.next, task.limit) in published
    {
      ghost var start := Model();
      ghost var served;
      r, served, trace := ProcessBatch(w, task, deliver, fails, others);
      match r {
        case PageComplete(_, _, _, next) =>
          published := published + {NextTask(next, task.limit)};
          Goes(w, Idle);
          ThenOwn(start, trace, PublishNext(w), w, deliver, others, steady);
          trace := trace + [PublishNext(w)];
        case RetryPage => published := published + {task};
        case _ =>
      }
    }
  }
}
