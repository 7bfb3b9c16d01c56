/**
 The broadcast rate gate: one shared document holds the recent grants and a
 cooldown, and a single atomic update prunes it, decides, and records a grant.
 `history` is every grant ever made; the document keeps only the last three
 seconds of it.  Times are milliseconds of the database clock.
 */
module RateGate {
  import opened Wrappers

  const WINDOW_MS := 1000
  const GROUP_INTERVAL_MS := 3000

  datatype Event = Event(chat: string, at: nat)

  datatype Document = Document(events: seq<Event>, blockedUntil: nat, decisionToken: Option<nat>)

  const EMPTY_DOCUMENT := Document([], 0, None)

  datatype Decision = Decision(granted: bool, retryAt: nat, globalRetryAt: nat)

  function Interval(chat: string): nat { if |chat| > 0 && chat[0] == '-' then GROUP_INTERVAL_MS else WINDOW_MS }

  function Max(a: int, b: int): int { if a >= b then a else b }

  /** `$filter` on `at > t`. */
  function After(events: seq<Event>, t: int): seq<Event> {
    if events == [] then []
    else
      var last := events[|events| - 1];
      After(events[..|events| - 1], t) + if last.at > t then [last] else []
  }

  function OfChat(events: seq<Event>, chat: string): seq<Event> {
    if events == [] then []
    else
      var last := events[|events| - 1];
      OfChat(events[..|events| - 1], chat) + if last.chat == chat then [last] else []
  }

  function MinAt(events: seq<Event>): nat
    requires events != []
  {
    var last := events[|events| - 1].at;
    if |events| == 1 then last else var m := MinAt(events[..|events| - 1]); if m <= last then m else last
  }

  function MaxAt(events: seq<Event>): nat
    requires events != []
  {
    var last := events[|events| - 1].at;
    if |events| == 1 then last else var m := MaxAt(events[..|events| - 1]); if m >= last then m else last
  }

  function GlobalRetryAt(events: seq<Event>, blockedUntil: nat, now: nat, limit: nat): nat
    requires limit >= 1
  {
    var recent := After(events, now - WINDOW_MS);
    Max(Max(now, blockedUntil), if |recent| >= limit then MinAt(recent) + WINDOW_MS else now)
  }

  function RetryAt(events: seq<Event>, blockedUntil: nat, now: nat, chat: string, limit: nat): nat
    requires limit >= 1
  {
    var chatRecent := After(OfChat(events, chat), now - Interval(chat));
    Max(GlobalRetryAt(events, blockedUntil, now, limit),
        if |chatRecent| > 0 then MaxAt(chatRecent) + Interval(chat) else now)
  }

  function Decide(events: seq<Event>, blockedUntil: nat, now: nat, chat: string, limit: nat): Decision
    requires limit >= 1
  {
    var retryAt := RetryAt(events, blockedUntil, now, chat, limit);
    Decision(retryAt <= now, retryAt, GlobalRetryAt(events, blockedUntil, now, limit))
  }

  /** The aggregation pipeline of `acquire`, stage by stage. */
  function Update(doc: Document, now: nat, chat: string, token: nat, limit: nat): (Document, Decision)
    requires limit >= 1
  {
    var events := After(doc.events, now - GROUP_INTERVAL_MS);
    var d := Decide(events, doc.blockedUntil, now, chat, limit);
    (doc.(events := if d.granted then events + [Event(chat, now)] else events,
          decisionToken := if d.granted then Some(token) else doc.decisionToken), d)
  }

  /** `Math.ceil` on the delay of a `defer` call. */
  function Ceil(ms: real): int { if ms == ms.Floor as real then ms.Floor else ms.Floor + 1 }

  function Deferred(doc: Document, now: nat, ms: real): Document
    requires ms >= 0.0
  {
    doc.(blockedUntil := Max(doc.blockedUntil, now + Ceil(ms)))
  }

  // ---- Runs ----------------------------------------------------------------

  datatype Op = Acquire(now: nat, chat: string, token: nat) | Defer(now: nat, ms: real)

  /** The document, every grant ever made, and the last time the clock was read. */
  datatype Gate = Gate(doc: Document, history: seq<Event>, clock: nat)

  const FRESH := Gate(EMPTY_DOCUMENT, [], 0)

  predicate Allowed(g: Gate, op: Op) { g.clock <= op.now && (op.Defer? ==> op.ms >= 0.0) }

  function Step(g: Gate, op: Op, limit: nat): Gate
    requires limit >= 1 && Allowed(g, op)
  {
    match op
    case Defer(now, ms) => Gate(Deferred(g.doc, now, ms), g.history, now)
    case Acquire(now, chat, token) =>
      var (doc, d) := Update(g.doc, now, chat, token, limit);
      Gate(doc, if d.granted then g.history + [Event(chat, now)] else g.history, now)
  }

  /** The clock never runs backwards over the operations. */
  ghost predicate Legal(g: Gate, ops: seq<Op>)
    decreases |ops|
  {
    ops == [] || (Allowed(g, ops[0]) && Legal(g.(clock := ops[0].now), ops[1..]))
  }

  ghost function Run(g: Gate, ops: seq<Op>, limit: nat): Gate
    requires limit >= 1 && Legal(g, ops)
    decreases |ops|
  {
    if ops == [] then g
    else
      LegalDependsOnClock(Step(g, ops[0], limit), g.(clock := ops[0].now), ops[1..]);
      Run(Step(g, ops[0], limit), ops[1..], limit)
  }

  lemma LegalDependsOnClock(a: Gate, b: Gate, ops: seq<Op>)
    requires a.clock == b.clock
    ensures Legal(a, ops) <==> Legal(b, ops)
    decreases |ops|
  {
  }

  // ---- Counting grants -----------------------------------------------------

  /** The number of events in the half-open window (lo, hi]. */
  function Count(events: seq<Event>, lo: int, hi: int): nat {
    if events == [] then 0
    else
      var last := events[|events| - 1];
      Count(events[..|events| - 1], lo, hi) + if lo < last.at <= hi then 1 else 0
  }

  /** Grants in the second that ends at `t`. */
  function InWindow(events: seq<Event>, t: int): nat { Count(events, t - WINDOW_MS, t) }

  ghost predicate UpTo(events: seq<Event>, now: int) { forall e :: e in events ==> e.at <= now }

  lemma {:induction false} AfterMembers(events: seq<Event>, t: int, e: Event)
    ensures e in After(events, t) <==> e in events && e.at > t
  {
    if events != [] {
      var n := |events| - 1;
      AfterMembers(events[..n], t, e);
      assert events == events[..n] + [events[n]];
    }
  }

  lemma {:induction false} ChatMembers(events: seq<Event>, chat: string, e: Event)
    ensures e in OfChat(events, chat) <==> e in events && e.chat == chat
  {
    if events != [] {
      var n := |events| - 1;
      ChatMembers(events[..n], chat, e);
      assert events == events[..n] + [events[n]];
    }
  }

  lemma {:induction false} AfterAfter(events: seq<Event>, t: int, u: int)
    requires t <= u
    ensures After(After(events, t), u) == After(events, u)
  {
    if events != [] {
      var n := |events| - 1;
      AfterAfter(events[..n], t, u);
      if events[n].at > t {
        assert After(events, t)[..|After(events, t)| - 1] == After(events[..n], t);
      } else {
        assert After(events, t) == After(events[..n], t);
      }
    }
  }

  lemma AfterAppend(events: seq<Event>, e: Event, t: int)
    ensures After(events + [e], t) == After(events, t) + if e.at > t then [e] else []
  {
  }

  lemma {:induction false} AfterOfChat(events: seq<Event>, chat: string, t: int)
    ensures After(OfChat(events, chat), t) == OfChat(After(events, t), chat)
  {
    if events != [] {
      var n := |events| - 1;
      AfterOfChat(events[..n], chat, t);
      if events[n].chat == chat { AfterAppend(OfChat(events[..n], chat), events[n], t); }
      else { assert OfChat(events, chat) == OfChat(events[..n], chat); }
      if events[n].at > t {
        assert After(events, t)[..|After(events, t)| - 1] == After(events[..n], t);
      } else {
        assert After(events, t) == After(events[..n], t);
      }
    }
  }

  lemma {:induction false} CountIsAfter(events: seq<Event>, lo: int, hi: int)
    requires UpTo(events, hi)
    ensures |After(events, lo)| == Count(events, lo, hi)
  {
    if events != [] {
      var n := |events| - 1;
      assert forall e :: e in events[..n] ==> e in events;
      CountIsAfter(events[..n], lo, hi);
      assert events[n] in events;
    }
  }

  lemma {:induction false} CountSplits(events: seq<Event>, lo: int, mid: int, hi: int)
    requires lo <= mid <= hi
    ensures Count(events, lo, hi) == Count(events, lo, mid) + Count(events, mid, hi)
  {
    if events != [] { CountSplits(events[..|events| - 1], lo, mid, hi); }
  }

  lemma CountAppend(events: seq<Event>, e: Event, lo: int, hi: int)
    ensures Count(events + [e], lo, hi) == Count(events, lo, hi) + if lo < e.at <= hi then 1 else 0
  {
  }

  lemma {:induction false} CountBeyond(events: seq<Event>, lo: int, now: int, hi: int)
    requires UpTo(events, now) && now <= hi
    ensures Count(events, lo, hi) == Count(events, lo, now)
  {
    if events != [] {
      var n := |events| - 1;
      assert forall e :: e in events[..n] ==> e in events;
      CountBeyond(events[..n], lo, now, hi);
      assert events[n] in events;
    }
  }

  lemma {:induction false} MinAtIsLeast(events: seq<Event>)
    requires events != []
    ensures forall e :: e in events ==> MinAt(events) <= e.at
    ensures exists e :: e in events && e.at == MinAt(events)
  {
    var n := |events| - 1;
    assert events == events[..n] + [events[n]];
    if n > 0 {
      MinAtIsLeast(events[..n]);
      var e :| e in events[..n] && e.at == MinAt(events[..n]);
      var found := if e.at <= events[n].at then e else events[n];
      assert found in events && found.at == MinAt(events);
    } else { assert events[0] in events; }
  }

  lemma {:induction false} MaxAtIsGreatest(events: seq<Event>)
    requires events != []
    ensures forall e :: e in events ==> e.at <= MaxAt(events)
    ensures exists e :: e in events && e.at == MaxAt(events)
  {
    var n := |events| - 1;
    assert events == events[..n] + [events[n]];
    if n > 0 {
      MaxAtIsGreatest(events[..n]);
      var e :| e in events[..n] && e.at == MaxAt(events[..n]);
      var found := if e.at >= events[n].at then e else events[n];
      assert found in events && found.at == MaxAt(events);
    } else { assert events[0] in events; }
  }

  // ---- What every operation keeps ------------------------------------------

  /** Above the pruning horizon the document has exactly the grants ever made. */
  ghost predicate Refines(events: seq<Event>, history: seq<Event>, clock: int) {
    forall t: int :: t >= clock - GROUP_INTERVAL_MS ==> After(events, t) == After(history, t)
  }

  ghost predicate WindowsFit(history: seq<Event>, limit: nat) {
    forall t: int :: InWindow(history, t) <= limit
  }

  predicate Spaced(a: Event, b: Event) { a.chat == b.chat ==> b.at - a.at >= Interval(a.chat) }

  ghost predicate ChatsSpaced(history: seq<Event>) {
    forall i, j :: 0 <= i < j < |history| ==> Spaced(history[i], history[j])
  }

  ghost predicate Inv(g: Gate, limit: nat) {
    && UpTo(g.history, g.clock)
    && Refines(g.doc.events, g.history, g.clock)
    && WindowsFit(g.history, limit)
    && ChatsSpaced(g.history)
    && |g.doc.events| <= 3 * limit
  }

  /** Pruning before filtering changes no later filter. */
  lemma PrunedAfter(history: seq<Event>, from: int, chat: string, t: int)
    requires from <= t
    ensures After(After(history, from), t) == After(history, t)
    ensures After(OfChat(After(history, from), chat), t) == After(OfChat(history, chat), t)
  {
    AfterAfter(history, from, t);
    AfterOfChat(After(history, from), chat, t);
    AfterOfChat(history, chat, t);
  }

  lemma GlobalOnPruned(history: seq<Event>, events: seq<Event>, blockedUntil: nat, now: nat, limit: nat)
    requires limit >= 1 && After(events, now - WINDOW_MS) == After(history, now - WINDOW_MS)
    ensures GlobalRetryAt(events, blockedUntil, now, limit) == GlobalRetryAt(history, blockedUntil, now, limit)
  {
  }

  lemma RetryOnPruned(history: seq<Event>, events: seq<Event>, blockedUntil: nat, now: nat, chat: string, limit: nat)
    requires limit >= 1
    requires GlobalRetryAt(events, blockedUntil, now, limit) == GlobalRetryAt(history, blockedUntil, now, limit)
    requires After(OfChat(events, chat), now - Interval(chat)) == After(OfChat(history, chat), now - Interval(chat))
    ensures RetryAt(events, blockedUntil, now, chat, limit) == RetryAt(history, blockedUntil, now, chat, limit)
  {
  }

  lemma DecideOnPruned(history: seq<Event>, events: seq<Event>, blockedUntil: nat, now: nat, chat: string, limit: nat)
    requires limit >= 1 && events == After(history, now - GROUP_INTERVAL_MS)
    ensures Decide(events, blockedUntil, now, chat, limit) == Decide(history, blockedUntil, now, chat, limit)
  {
    PrunedAfter(history, now - GROUP_INTERVAL_MS, chat, now - WINDOW_MS);
    GlobalOnPruned(history, events, blockedUntil, now, limit);
    PrunedAfter(history, now - GROUP_INTERVAL_MS, chat, now - Interval(chat));
    RetryOnPruned(history, events, blockedUntil, now, chat, limit);
  }

  /** Every decision and every retry time computed from the pruned document is
      the one the whole history of grants would give. */
  lemma DecisionFromHistory(g: Gate, now: nat, chat: string, token: nat, limit: nat)
    requires limit >= 1 && Inv(g, limit) && g.clock <= now
    ensures Update(g.doc, now, chat, token, limit).1 == Decide(g.history, g.doc.blockedUntil, now, chat, limit)
  {
    assert After(g.doc.events, now - GROUP_INTERVAL_MS) == After(g.history, now - GROUP_INTERVAL_MS);
    DecideOnPruned(g.history, After(g.doc.events, now - GROUP_INTERVAL_MS), g.doc.blockedUntil, now, chat, limit);
  }

  lemma OldestIsRecent(history: seq<Event>, t: int)
    requires After(history, t) != []
    ensures MinAt(After(history, t)) > t
  {
    var recent := After(history, t);
    MinAtIsLeast(recent);
    var e :| e in recent && e.at == MinAt(recent);
    AfterMembers(history, t, e);
  }

  lemma GlobalMeans(history: seq<Event>, blockedUntil: nat, now: nat, limit: nat)
    requires limit >= 1 && UpTo(history, now)
    ensures GlobalRetryAt(history, blockedUntil, now, limit) <= now <==>
      blockedUntil <= now && InWindow(history, now) < limit
  {
    CountIsAfter(history, now - WINDOW_MS, now);
    if |After(history, now - WINDOW_MS)| >= limit { OldestIsRecent(history, now - WINDOW_MS); }
  }

  predicate ChatRested(history: seq<Event>, chat: string, now: int) {
    forall e :: e in history && e.chat == chat ==> now - e.at >= Interval(chat)
  }

  lemma RecentOfChat(history: seq<Event>, chat: string, t: int)
    ensures forall e :: e in After(OfChat(history, chat), t) <==> e in history && e.chat == chat && e.at > t
  {
    forall e ensures e in After(OfChat(history, chat), t) <==> e in history && e.chat == chat && e.at > t {
      AfterMembers(OfChat(history, chat), t, e);
      ChatMembers(history, chat, e);
    }
  }

  lemma ChatMeans(history: seq<Event>, now: nat, chat: string)
    ensures var mine := After(OfChat(history, chat), now - Interval(chat));
      && (mine == [] <==> ChatRested(history, chat, now))
      && (mine != [] ==> MaxAt(mine) + Interval(chat) > now && ChatRested(history, chat, MaxAt(mine) + Interval(chat)))
  {
    var mine := After(OfChat(history, chat), now - Interval(chat));
    RecentOfChat(history, chat, now - Interval(chat));
    if mine != [] {
      MaxAtIsGreatest(mine);
      var e :| e in mine && e.at == MaxAt(mine);
    } else {
      forall e | e in history && e.chat == chat ensures now - e.at >= Interval(chat) { assert e !in mine; }
    }
  }

  /** When a grant is given, in terms of the grants before it. */
  lemma GrantMeans(history: seq<Event>, blockedUntil: nat, now: nat, chat: string, limit: nat)
    requires limit >= 1 && UpTo(history, now)
    ensures Decide(history, blockedUntil, now, chat, limit).granted <==>
      blockedUntil <= now && InWindow(history, now) < limit && ChatRested(history, chat, now)
  {
    GlobalMeans(history, blockedUntil, now, limit);
    ChatMeans(history, now, chat);
  }

  lemma ThreeWindows(history: seq<Event>, now: int, limit: nat)
    requires UpTo(history, now) && WindowsFit(history, limit)
    ensures |After(history, now - GROUP_INTERVAL_MS)| <= 3 * limit
  {
    CountIsAfter(history, now - 3000, now);
    CountSplits(history, now - 3000, now - 2000, now);
    CountSplits(history, now - 2000, now - 1000, now);
    assert InWindow(history, now - 2000) <= limit && InWindow(history, now - 1000) <= limit &&
           InWindow(history, now) <= limit;
  }

  lemma GrantKeepsWindows(history: seq<Event>, e: Event, limit: nat)
    requires UpTo(history, e.at) && WindowsFit(history, limit) && InWindow(history, e.at) < limit
    ensures WindowsFit(history + [e], limit)
  {
    forall t: int ensures InWindow(history + [e], t) <= limit {
      CountAppend(history, e, t - WINDOW_MS, t);
      assert InWindow(history, t) <= limit;
      if t - WINDOW_MS < e.at <= t {
        CountBeyond(history, t - WINDOW_MS, e.at, t);
        CountSplits(history, e.at - WINDOW_MS, t - WINDOW_MS, e.at);
      }
    }
  }

  lemma PrunedRefines(events: seq<Event>, history: seq<Event>, clock: int, now: int)
    requires Refines(events, history, clock) && clock <= now
    ensures Refines(After(events, now - GROUP_INTERVAL_MS), history, now)
  {
    forall t: int | t >= now - GROUP_INTERVAL_MS
      ensures After(After(events, now - GROUP_INTERVAL_MS), t) == After(history, t)
    {
      AfterAfter(events, now - GROUP_INTERVAL_MS, t);
      assert After(events, t) == After(history, t);
    }
  }

  lemma AppendRefines(events: seq<Event>, history: seq<Event>, e: Event)
    requires Refines(events, history, e.at)
    ensures Refines(events + [e], history + [e], e.at)
  {
  }

  lemma PrunedFits(events: seq<Event>, history: seq<Event>, now: int, limit: nat)
    requires Refines(events, history, now) && After(events, now - GROUP_INTERVAL_MS) == events
    requires UpTo(history, now) && WindowsFit(history, limit)
    ensures |events| <= 3 * limit
  {
    assert After(events, now - GROUP_INTERVAL_MS) == After(history, now - GROUP_INTERVAL_MS);
    ThreeWindows(history, now, limit);
  }

  lemma SpacedAppend(history: seq<Event>, e: Event)
    requires ChatsSpaced(history) && ChatRested(history, e.chat, e.at)
    ensures ChatsSpaced(history + [e])
  {
  }

  /** The state after an `acquire`, apart from the pruned list itself. */
  lemma AcquireShape(g: Gate, now: nat, chat: string, token: nat, limit: nat)
    requires limit >= 1 && Inv(g, limit) && g.clock <= now
    ensures var next := Step(g, Acquire(now, chat, token), limit);
      var d := Update(g.doc, now, chat, token, limit).1;
      var pruned := After(g.doc.events, now - GROUP_INTERVAL_MS);
      && next.clock == now && next.doc.blockedUntil == g.doc.blockedUntil
      && next.history == (if d.granted then g.history + [Event(chat, now)] else g.history)
      && next.doc.events == (if d.granted then pruned + [Event(chat, now)] else pruned)
      && d.globalRetryAt == GlobalRetryAt(g.history, g.doc.blockedUntil, now, limit)
      && (d.granted ==> InWindow(g.history, now) < limit && ChatRested(g.history, chat, now))
  {
    DecisionFromHistory(g, now, chat, token, limit);
    GrantMeans(g.history, g.doc.blockedUntil, now, chat, limit);
  }

  lemma AcquireKeeps(g: Gate, now: nat, chat: string, token: nat, limit: nat)
    requires limit >= 1 && Inv(g, limit) && g.clock <= now
    ensures Inv(Step(g, Acquire(now, chat, token), limit), limit)
  {
    AcquireShape(g, now, chat, token, limit);
    var next := Step(g, Acquire(now, chat, token), limit);
    var horizon := now - GROUP_INTERVAL_MS;
    var pruned := After(g.doc.events, horizon);
    PrunedRefines(g.doc.events, g.history, g.clock, now);
    AfterAfter(g.doc.events, horizon, horizon);
    if next.history != g.history {
      var e := Event(chat, now);
      GrantKeepsWindows(g.history, e, limit);
      SpacedAppend(g.history, e);
      AppendRefines(pruned, g.history, e);
      AfterAppend(pruned, e, horizon);
    }
    PrunedFits(next.doc.events, next.history, now, limit);
  }

  lemma StepKeeps(g: Gate, op: Op, limit: nat)
    requires limit >= 1 && Inv(g, limit) && Allowed(g, op)
    ensures Inv(Step(g, op, limit), limit)
  {
    if op.Acquire? { AcquireKeeps(g, op.now, op.chat, op.token, limit); }
  }

  lemma {:induction false} RunKeeps(g: Gate, ops: seq<Op>, limit: nat)
    requires limit >= 1 && Inv(g, limit) && Legal(g, ops)
    ensures Inv(Run(g, ops, limit), limit)
    decreases |ops|
  {
    if ops != [] {
      StepKeeps(g, ops[0], limit);
      LegalDependsOnClock(Step(g, ops[0], limit), g.(clock := ops[0].now), ops[1..]);
      RunKeeps(Step(g, ops[0], limit), ops[1..], limit);
    }
  }

  /** Main result: whatever the workers do, no window of one second ever holds
      more than `limit` grants, grants to one chat keep their distance, and the
      stored list stays bounded. */
  lemma RateIsNeverExceeded(ops: seq<Op>, limit: nat)
    requires limit >= 1 && Legal(FRESH, ops)
    ensures var g := Run(FRESH, ops, limit);
      && (forall t: int :: InWindow(g.history, t) <= limit)
      && (forall i, j :: 0 <= i < j < |g.history| && g.history[i].chat == g.history[j].chat ==>
            g.history[j].at - g.history[i].at >= Interval(g.history[i].chat))
      && |g.doc.events| <= 3 * limit
  {
    RunKeeps(FRESH, ops, limit);
    var h := Run(FRESH, ops, limit).history;
    forall i, j | 0 <= i < j < |h| && h[i].chat == h[j].chat ensures h[j].at - h[i].at >= Interval(h[i].chat) {
      assert Spaced(h[i], h[j]);
    }
  }

  // ---- Cooldowns and retry hints -------------------------------------------

  /** Nothing can be granted before `t`: a cooldown covers it, or the window is
      full of grants that are too recent. */
  ghost predicate ShutUntil(g: Gate, t: int, limit: nat) {
    t <= g.clock || t <= g.doc.blockedUntil || Count(g.history, t - WINDOW_MS - 1, g.clock) >= limit
  }

  lemma FullUntil(history: seq<Event>, clock: int, now: int, t: int, limit: nat)
    requires limit >= 1 && UpTo(history, clock) && clock <= now < t && Count(history, t - WINDOW_MS - 1, clock) >= limit
    ensures InWindow(history, now) >= limit
  {
    if t - WINDOW_MS - 1 <= clock { CountSplits(history, now - WINDOW_MS, t - WINDOW_MS - 1, clock); }
    else { CountNothing(history, t - WINDOW_MS - 1, clock); }
    CountBeyond(history, now - WINDOW_MS, clock, now);
  }

  lemma ShutMeansRejected(g: Gate, t: int, now: nat, chat: string, token: nat, limit: nat)
    requires limit >= 1 && Inv(g, limit) && ShutUntil(g, t, limit) && g.clock <= now < t
    ensures !Update(g.doc, now, chat, token, limit).1.granted
  {
    DecisionFromHistory(g, now, chat, token, limit);
    GrantMeans(g.history, g.doc.blockedUntil, now, chat, limit);
    if Count(g.history, t - WINDOW_MS - 1, g.clock) >= limit { FullUntil(g.history, g.clock, now, t, limit); }
  }

  lemma {:induction false} CountNothing(events: seq<Event>, lo: int, hi: int)
    requires hi <= lo
    ensures Count(events, lo, hi) == 0
  {
    if events != [] { CountNothing(events[..|events| - 1], lo, hi); }
  }

  lemma ShutStays(g: Gate, t: int, op: Op, limit: nat)
    requires limit >= 1 && Inv(g, limit) && Allowed(g, op) && ShutUntil(g, t, limit)
    ensures ShutUntil(Step(g, op, limit), t, limit)
  {
    CountBeyond(g.history, t - WINDOW_MS - 1, g.clock, op.now);
    if op.Acquire? { CountAppend(g.history, Event(op.chat, op.now), t - WINDOW_MS - 1, op.now); }
  }

  lemma {:induction false} ShutStaysOverRun(g: Gate, t: int, ops: seq<Op>, limit: nat)
    requires limit >= 1 && Inv(g, limit) && Legal(g, ops) && ShutUntil(g, t, limit)
    ensures Inv(Run(g, ops, limit), limit) && ShutUntil(Run(g, ops, limit), t, limit)
    decreases |ops|
  {
    if ops != [] {
      StepKeeps(g, ops[0], limit);
      ShutStays(g, t, ops[0], limit);
      LegalDependsOnClock(Step(g, ops[0], limit), g.(clock := ops[0].now), ops[1..]);
      ShutStaysOverRun(Step(g, ops[0], limit), t, ops[1..], limit);
    }
  }

  lemma HintIs(g: Gate, now: nat, chat: string, token: nat, limit: nat)
    requires limit >= 1 && Inv(g, limit) && g.clock <= now
    ensures UpTo(g.history, now)
    ensures var next := Step(g, Acquire(now, chat, token), limit);
      && next.clock == now && next.doc.blockedUntil == g.doc.blockedUntil
      && (next.history == g.history || next.history == g.history + [Event(chat, now)])
    ensures Update(g.doc, now, chat, token, limit).1.globalRetryAt ==
            GlobalRetryAt(g.history, g.doc.blockedUntil, now, limit)
  {
    AcquireShape(g, now, chat, token, limit);
  }

  lemma HintShuts(g: Gate, now: nat, chat: string, token: nat, limit: nat)
    requires limit >= 1 && Inv(g, limit) && g.clock <= now
    ensures var hint := Update(g.doc, now, chat, token, limit).1.globalRetryAt;
      ShutUntil(Step(g, Acquire(now, chat, token), limit), hint, limit)
  {
    HintIs(g, now, chat, token, limit);
    ShutAt(Step(g, Acquire(now, chat, token), limit), g.history, now, chat, limit);
  }

  lemma ShutAt(next: Gate, history: seq<Event>, now: nat, chat: string, limit: nat)
    requires limit >= 1 && UpTo(history, now) && next.clock == now
    requires next.history == history || next.history == history + [Event(chat, now)]
    ensures ShutUntil(next, GlobalRetryAt(history, next.doc.blockedUntil, now, limit), limit)
  {
    HintCounts(history, next.doc.blockedUntil, now, limit);
    var hint := GlobalRetryAt(history, next.doc.blockedUntil, now, limit);
    CountAppend(history, Event(chat, now), hint - WINDOW_MS - 1, now);
  }

  lemma HintCounts(history: seq<Event>, blockedUntil: nat, now: nat, limit: nat)
    requires limit >= 1 && UpTo(history, now)
    ensures var hint := GlobalRetryAt(history, blockedUntil, now, limit);
      hint <= now || hint <= blockedUntil || Count(history, hint - WINDOW_MS - 1, now) >= limit
  {
    if |After(history, now - WINDOW_MS)| >= limit { FullWindow(history, now, limit); }
  }

  lemma FullWindow(history: seq<Event>, now: int, limit: nat)
    requires limit >= 1 && UpTo(history, now) && |After(history, now - WINDOW_MS)| >= limit
    ensures Count(history, MinAt(After(history, now - WINDOW_MS)) - 1, now) >= limit
  {
    var recent := After(history, now - WINDOW_MS);
    MinAtIsLeast(recent);
    RecentFrom(history, now - WINDOW_MS, MinAt(recent) - 1);
    CountIsAfter(history, MinAt(recent) - 1, now);
  }

  /** If nothing after `t` is as old as `u`, then everything after `t` is after `u`. */
  lemma {:induction false} RecentFrom(events: seq<Event>, t: int, u: int)
    requires forall e :: e in After(events, t) ==> e.at > u
    ensures |After(events, u)| >= |After(events, t)|
  {
    if events != [] {
      var n := |events| - 1;
      assert forall e :: e in After(events[..n], t) ==> e in After(events, t);
      RecentFrom(events[..n], t, u);
      if events[n].at > t { assert events[n] in After(events, t); }
    }
  }

  lemma NoGrantWhileShut(g: Gate, t: int, after: seq<Op>, last: Op, limit: nat)
    requires limit >= 1 && Inv(g, limit) && ShutUntil(g, t, limit)
    requires Legal(g, after) && last.Acquire? && Allowed(Run(g, after, limit), last)
    requires Update(Run(g, after, limit).doc, last.now, last.chat, last.token, limit).1.granted
    ensures last.now >= t
  {
    ShutStaysOverRun(g, t, after, limit);
    if last.now < t { ShutMeansRejected(Run(g, after, limit), t, last.now, last.chat, last.token, limit); }
  }

  /** Main result: a reported global retry time is sound.  After any further
      operations, no worker is granted any chat before that time. */
  lemma NoGrantBeforeHint(before: seq<Op>, now: nat, chat: string, token: nat, after: seq<Op>, last: Op, limit: nat)
    requires limit >= 1 && Legal(FRESH, before) && Run(FRESH, before, limit).clock <= now
    requires var g := Step(Run(FRESH, before, limit), Acquire(now, chat, token), limit);
      Legal(g, after) && last.Acquire? && Allowed(Run(g, after, limit), last)
      && Update(Run(g, after, limit).doc, last.now, last.chat, last.token, limit).1.granted
    ensures last.now >= Update(Run(FRESH, before, limit).doc, now, chat, token, limit).1.globalRetryAt
  {
    RunKeeps(FRESH, before, limit);
    var g0 := Run(FRESH, before, limit);
    var hint := Update(g0.doc, now, chat, token, limit).1.globalRetryAt;
    HintShuts(g0, now, chat, token, limit);
    StepKeeps(g0, Acquire(now, chat, token), limit);
    var g := Step(g0, Acquire(now, chat, token), limit);
    NoGrantWhileShut(g, hint, after, last, limit);
  }

  /** Main result: a shared cooldown is never cut short by anyone. */
  lemma NoGrantDuringCooldown(before: seq<Op>, now: nat, ms: real, after: seq<Op>, last: Op, limit: nat)
    requires limit >= 1 && Legal(FRESH, before) && Run(FRESH, before, limit).clock <= now && ms >= 0.0
    requires var g := Step(Run(FRESH, before, limit), Defer(now, ms), limit);
      Legal(g, after) && last.Acquire? && Allowed(Run(g, after, limit), last)
      && Update(Run(g, after, limit).doc, last.now, last.chat, last.token, limit).1.granted
    ensures last.now as real >= now as real + ms
  {
    RunKeeps(FRESH, before, limit);
    StepKeeps(Run(FRESH, before, limit), Defer(now, ms), limit);
    var g := Step(Run(FRESH, before, limit), Defer(now, ms), limit);
    NoGrantWhileShut(g, now + Ceil(ms), after, last, limit);
  }

  /** Windows only empty while nothing is granted. */
  lemma WindowEmpties(h: seq<Event>, now: nat, t: nat)
    requires UpTo(h, now) && now <= t
    ensures InWindow(h, t) <= InWindow(h, now)
    ensures t - WINDOW_MS <= now ==> InWindow(h, now) == Count(h, now - WINDOW_MS, t - WINDOW_MS) + InWindow(h, t)
    ensures t - WINDOW_MS > now ==> InWindow(h, t) == 0
  {
    CountBeyond(h, t - WINDOW_MS, now, t);
    if t - WINDOW_MS <= now { CountSplits(h, now - WINDOW_MS, t - WINDOW_MS, now); }
    else { CountNothing(h, t - WINDOW_MS, now); }
  }

  /** When the oldest grant of a full window leaves it, there is room again. */
  lemma RoomAtGlobalRetry(h: seq<Event>, blockedUntil: nat, now: nat, t: nat, limit: nat)
    requires limit >= 1 && UpTo(h, now) && WindowsFit(h, limit) && t >= GlobalRetryAt(h, blockedUntil, now, limit)
    ensures blockedUntil <= t && InWindow(h, t) < limit
  {
    var recent := After(h, now - WINDOW_MS);
    CountIsAfter(h, now - WINDOW_MS, now);
    WindowEmpties(h, now, t);
    assert InWindow(h, now) <= limit;
    if |recent| >= limit && t - WINDOW_MS <= now {
      assert t - WINDOW_MS >= MinAt(recent);
      OldestCounts(h, now - WINDOW_MS, t - WINDOW_MS);
    }
  }

  lemma OldestCounts(h: seq<Event>, lo: int, hi: int)
    requires After(h, lo) != [] && MinAt(After(h, lo)) <= hi
    ensures Count(h, lo, hi) >= 1
  {
    var recent := After(h, lo);
    MinAtIsLeast(recent);
    var e :| e in recent && e.at == MinAt(recent);
    AfterMembers(h, lo, e);
    CountHas(h, e, lo, hi);
  }

  /** Main result: a retry time is tight.  If nothing else happens, the same
      chat is granted at exactly that time. */
  lemma GrantedAtRetryTime(g: Gate, now: nat, chat: string, token: nat, again: nat, limit: nat)
    requires limit >= 1 && Inv(g, limit) && g.clock <= now
    requires !Update(g.doc, now, chat, token, limit).1.granted
    ensures var rejected := Step(g, Acquire(now, chat, token), limit);
      var retryAt := Update(g.doc, now, chat, token, limit).1.retryAt;
      retryAt > now && Update(rejected.doc, retryAt, chat, again, limit).1.granted
  {
    var next := Step(g, Acquire(now, chat, token), limit);
    var d := Update(g.doc, now, chat, token, limit).1;
    StepKeeps(g, Acquire(now, chat, token), limit);
    DecisionFromHistory(g, now, chat, token, limit);
    DecisionFromHistory(next, d.retryAt, chat, again, limit);
    GrantMeans(g.history, g.doc.blockedUntil, d.retryAt, chat, limit);
    RoomAtGlobalRetry(g.history, g.doc.blockedUntil, now, d.retryAt, limit);
    ChatMeans(g.history, now, chat);
  }

  lemma {:induction false} CountHas(events: seq<Event>, e: Event, lo: int, hi: int)
    requires e in events && lo < e.at <= hi
    ensures Count(events, lo, hi) >= 1
  {
    var n := |events| - 1;
    if events[n] != e {
      assert events == events[..n] + [events[n]];
      CountHas(events[..n], e, lo, hi);
    }
  }

  /** Main result: a global retry time is exact.  While nothing else happens, any
      chat is granted at `t` exactly when that time has come and the chat has
      rested; so a cached rejection is the document's own until then, and no longer. */
  lemma HintIsExact(g: Gate, now: nat, chat: string, token: nat, t: nat, other: string, again: nat, limit: nat)
    requires limit >= 1 && Inv(g, limit) && g.clock <= now <= t
    requires Update(g.doc, now, chat, token, limit).1.globalRetryAt > now
    ensures var next := Step(g, Acquire(now, chat, token), limit);
      Update(next.doc, t, other, again, limit).1.granted <==>
        t >= Update(g.doc, now, chat, token, limit).1.globalRetryAt && ChatRested(g.history, other, t)
  {
    var next := Step(g, Acquire(now, chat, token), limit);
    var hint := Update(g.doc, now, chat, token, limit).1.globalRetryAt;
    StepKeeps(g, Acquire(now, chat, token), limit);
    AcquireShape(g, now, chat, token, limit);
    DecisionFromHistory(next, t, other, again, limit);
    GrantMeans(g.history, g.doc.blockedUntil, t, other, limit);
    if t >= hint { RoomAtGlobalRetry(g.history, g.doc.blockedUntil, now, t, limit); }
    else {
      HintShuts(g, now, chat, token, limit);
      ShutMeansRejected(next, hint, t, other, again, limit);
    }
  }

  /** Nothing is granted before `t`, and from then on every rested chat is. */
  ghost predicate OpensAt(g: Gate, t: int, limit: nat)
    requires limit >= 1
  {
    forall now: nat, chat, token | g.clock <= now ::
      Update(g.doc, now, chat, token, limit).1.granted <==> now >= t && ChatRested(g.history, chat, now)
  }

  lemma HintOpens(g: Gate, now: nat, chat: string, token: nat, limit: nat)
    requires limit >= 1 && Inv(g, limit) && g.clock <= now
    requires Update(g.doc, now, chat, token, limit).1.globalRetryAt > now
    ensures var next := Step(g, Acquire(now, chat, token), limit);
      next.history == g.history && OpensAt(next, Update(g.doc, now, chat, token, limit).1.globalRetryAt, limit)
  {
    var next := Step(g, Acquire(now, chat, token), limit);
    var hint := Update(g.doc, now, chat, token, limit).1.globalRetryAt;
    AcquireShape(g, now, chat, token, limit);
    forall t: nat, other, again | next.clock <= t
      ensures Update(next.doc, t, other, again, limit).1.granted <==> t >= hint && ChatRested(next.history, other, t)
    {
      HintIsExact(g, now, chat, token, t, other, again, limit);
    }
  }

  /** A call at `checkedAt` of a clock that is `skew` behind, `lateness` after the
      time at which the document opens. */
  lemma OpenedAt(g: Gate, until: int, skew: int, lateness: int, checkedAt: nat, chat: string, token: nat, limit: nat)
    requires limit >= 1 && OpensAt(g, until + skew - lateness, limit) && g.clock <= checkedAt + skew
    ensures Update(g.doc, checkedAt + skew, chat, token, limit).1.granted <==>
            checkedAt + lateness >= until && ChatRested(g.history, chat, checkedAt + skew)
  {
  }

  /** What is known of a rejection from a cache that ends at `until`: it is the
      document's own except in the last `lateness` milliseconds, and if nothing
      happened since the decision that is cached, exactly so. */
  ghost predicate CacheTells(g: Gate, until: int, skew: int, lateness: int, checkedAt: nat, chat: string, token: nat,
                             limit: nat)
    requires limit >= 1 && checkedAt + skew >= 0
  {
    var granted := Update(g.doc, checkedAt + skew, chat, token, limit).1.granted;
    && (checkedAt + lateness < until ==> !granted)
    && (OpensAt(g, until + skew - lateness, limit) ==>
          (granted <==> checkedAt + lateness >= until && ChatRested(g.history, chat, checkedAt + skew)))
  }

  lemma CachedIsRight(g: Gate, until: int, skew: int, lateness: int, checkedAt: nat, chat: string, token: nat,
                      limit: nat)
    requires limit >= 1 && Inv(g, limit) && ShutUntil(g, until + skew - lateness, limit) && g.clock <= checkedAt + skew
    ensures CacheTells(g, until, skew, lateness, checkedAt, chat, token, limit)
  {
    StillShut(g, until, skew, lateness, checkedAt, chat, token, limit);
    if OpensAt(g, until + skew - lateness, limit) {
      OpenedAt(g, until, skew, lateness, checkedAt, chat, token, limit);
    }
  }

  lemma StillShut(g: Gate, until: int, skew: int, lateness: int, checkedAt: nat, chat: string, token: nat, limit: nat)
    requires limit >= 1 && Inv(g, limit) && ShutUntil(g, until + skew - lateness, limit) && g.clock <= checkedAt + skew
    ensures checkedAt + lateness < until ==> !Update(g.doc, checkedAt + skew, chat, token, limit).1.granted
  {
    if checkedAt + lateness < until {
      ShutMeansRejected(g, until + skew - lateness, checkedAt + skew, chat, token, limit);
    }
  }

  /** Main result: how long a cached rejection is right.  A decision made at
      `decidedAt` is cached when its reply arrives at `repliedAt` of a worker's clock
      that is `skew` behind, until `repliedAt` plus the reported delay.  While
      nothing else happens, the document would grant a call that the cache rejects
      if and only if it comes within the reply's latency of that end and its chat
      has rested. */
  lemma CachedIsExact(g: Gate, decidedAt: nat, repliedAt: nat, skew: int, chat: string, token: nat, hint: nat,
                      checkedAt: nat, other: string, again: nat, limit: nat)
    requires limit >= 1 && Inv(g, limit) && g.clock <= decidedAt <= repliedAt + skew && decidedAt <= checkedAt + skew
    requires hint == Update(g.doc, decidedAt, chat, token, limit).1.globalRetryAt > decidedAt
    ensures var next := Step(g, Acquire(decidedAt, chat, token), limit); var until := repliedAt + (hint - decidedAt);
      Update(next.doc, checkedAt + skew, other, again, limit).1.granted <==>
        checkedAt + (repliedAt + skew - decidedAt) >= until && ChatRested(g.history, other, checkedAt + skew)
  {
    var next := Step(g, Acquire(decidedAt, chat, token), limit);
    HintOpens(g, decidedAt, chat, token, limit);
    OpenedAt(next, repliedAt + (hint - decidedAt), skew, repliedAt + skew - decidedAt, checkedAt, other, again, limit);
  }

  /** What a decision keeps: the invariant, any earlier retry time, and its own, exactly. */
  lemma DecisionKeeps(g: Gate, now: nat, chat: string, token: nat, cached: bool, until: int, limit: nat)
    requires limit >= 1 && Inv(g, limit) && g.clock <= now && (cached ==> ShutUntil(g, until, limit))
    ensures var next := Step(g, Acquire(now, chat, token), limit);
      && Inv(next, limit) && ShutUntil(next, Update(g.doc, now, chat, token, limit).1.globalRetryAt, limit)
      && (cached ==> ShutUntil(next, until, limit))
      && (Update(g.doc, now, chat, token, limit).1.globalRetryAt > now ==>
            OpensAt(next, Update(g.doc, now, chat, token, limit).1.globalRetryAt, limit))
  {
    if Update(g.doc, now, chat, token, limit).1.globalRetryAt > now { HintOpens(g, now, chat, token, limit); }
    AcquireKeeps(g, now, chat, token, limit);
    HintShuts(g, now, chat, token, limit);
    if cached { ShutStays(g, until, Acquire(now, chat, token), limit); }
  }

  // ---- The gate object of one worker ---------------------------------------

  /** The document all workers share, with the ghost history of its grants. */
  class SharedDocument {
    var doc: Document
    ghost var history: seq<Event>
    ghost var clock: nat

    ghost function Model(): Gate
      reads this
    {
      Gate(doc, history, clock)
    }

    constructor ()
      ensures Model() == FRESH
    {
      doc, history, clock := EMPTY_DOCUMENT, [], 0;
    }

    /** One atomic update, by anyone. */
    method Apply(op: Op, limit: nat) returns (d: Decision)
      requires limit >= 1 && Allowed(Model(), op)
      modifies this
      ensures Model() == Step(old(Model()), op, limit)
      ensures op.Acquire? ==> d == Update(old(doc), op.now, op.chat, op.token, limit).1
      ensures op.Acquire? ==> (d.granted ==> doc.decisionToken == Some(op.token))
      ensures op.Acquire? ==> (!d.granted ==> doc.decisionToken == old(doc.decisionToken))
    {
      d := Decision(false, 0, 0);
      match op {
        case Defer(now, ms) => doc := Deferred(doc, now, ms);
        case Acquire(now, chat, token) =>
          var (updated, decision) := Update(doc, now, chat, token, limit);
          doc, d := updated, decision;
          if d.granted { history := history + [Event(chat, now)]; }
      }
      clock := op.now;
    }
  }

  class BroadcastRateGate {
    const shared: SharedDocument
    const limit: nat
    /** The database's clock minus the worker's. */
    ghost const skew: int
    /** On the worker's clock. */
    var globallyBlockedUntil: nat
    /** How long after its decision the reply arrived that was cached. */
    ghost var lateness: nat

    /** Up to that lateness, the cache promises no more than the document does. */
    ghost predicate Valid()
      reads this, shared
    {
      && limit >= 1 && Inv(shared.Model(), limit)
      && (globallyBlockedUntil > 0 ==> ShutUntil(shared.Model(), globallyBlockedUntil + skew - lateness, limit))
    }

    constructor (shared: SharedDocument, limit: nat, ghost skew: int)
      requires 1 <= limit <= 25 && Inv(shared.Model(), limit)
      ensures Valid() && this.shared == shared && this.limit == limit && this.skew == skew && globallyBlockedUntil == 0
    {
      this.shared, this.limit, this.skew, globallyBlockedUntil, lateness := shared, limit, skew, 0, 0;
    }

    /** An `await`: whatever other gates do with the document keeps this one valid. */
    method Await(others: seq<Op>)
      requires Valid() && Legal(shared.Model(), others)
      modifies shared
      ensures Valid() && shared.Model() == Run(old(shared.Model()), others, limit)
      decreases |others|
    {
      if others == [] { return; }
      StepKeeps(shared.Model(), others[0], limit);
      if globallyBlockedUntil > 0 {
        ShutStays(shared.Model(), globallyBlockedUntil + skew - lateness, others[0], limit);
      }
      LegalDependsOnClock(Step(shared.Model(), others[0], limit), shared.Model().(clock := others[0].now), others[1..]);
      var _ := shared.Apply(others[0], limit);
      Await(others[1..]);
    }

    /** The atomic update of `acquire`, and whether it stored this call's token. */
    method Decided(now: nat, chat: string, token: nat) returns (d: Decision, granted: bool)
      requires Valid() && shared.clock <= now && shared.doc.decisionToken != Some(token)
      modifies shared
      ensures Valid() && ShutUntil(shared.Model(), d.globalRetryAt, limit)
      ensures d == Update(old(shared.doc), now, chat, token, limit).1 && granted == d.granted
      ensures shared.Model() == Step(old(shared.Model()), Op.Acquire(now, chat, token), limit)
      ensures d.retryAt >= now && (d.globalRetryAt > now ==> OpensAt(shared.Model(), d.globalRetryAt, limit))
    {
      DecisionKeeps(shared.Model(), now, chat, token, globallyBlockedUntil > 0, globallyBlockedUntil + skew - lateness,
                    limit);
      d := shared.Apply(Op.Acquire(now, chat, token), limit);
      granted := shared.doc.decisionToken == Some(token);
    }

    /** Waiting for the reply: the retry time it carries stays sound. */
    method AwaitReply(others: seq<Op>, globalRetryAt: nat)
      requires Valid() && Legal(shared.Model(), others) && ShutUntil(shared.Model(), globalRetryAt, limit)
      modifies shared
      ensures Valid() && shared.Model() == Run(old(shared.Model()), others, limit)
      ensures ShutUntil(shared.Model(), globalRetryAt, limit)
    {
      ShutStaysOverRun(shared.Model(), globalRetryAt, others, limit);
      Await(others);
    }

    /** The reply's delay, counted from when the reply arrives. */
    method Remember(repliedAt: nat, decidedAt: nat, globalRetryAt: nat)
      requires Valid() && decidedAt <= repliedAt + skew && ShutUntil(shared.Model(), globalRetryAt, limit)
      modifies this`globallyBlockedUntil, this`lateness
      ensures Valid()
      ensures globallyBlockedUntil == if globalRetryAt > decidedAt
              then Max(old(globallyBlockedUntil), repliedAt + (globalRetryAt - decidedAt))
              else old(globallyBlockedUntil)
      ensures lateness == if globallyBlockedUntil > old(globallyBlockedUntil)
              then repliedAt + skew - decidedAt else old(lateness)
    {
      var until := repliedAt + (globalRetryAt - decidedAt);
      if globalRetryAt > decidedAt && until > globallyBlockedUntil {
        globallyBlockedUntil, lateness := until, repliedAt + skew - decidedAt;
      }
    }

    /** The reply's retry time, after what others do until it arrives. */
    method Receive(decidedAt: nat, repliedAt: nat, globalRetryAt: nat, others: seq<Op>)
      requires Valid() && decidedAt <= repliedAt + skew && Legal(shared.Model(), others)
      requires ShutUntil(shared.Model(), globalRetryAt, limit)
      modifies this`globallyBlockedUntil, this`lateness, shared
      ensures Valid() && shared.Model() == Run(old(shared.Model()), others, limit)
      ensures others == [] ==> shared.Model() == old(shared.Model())
      ensures globallyBlockedUntil == if globalRetryAt > decidedAt
              then Max(old(globallyBlockedUntil), repliedAt + (globalRetryAt - decidedAt))
              else old(globallyBlockedUntil)
      ensures lateness == if globallyBlockedUntil > old(globallyBlockedUntil)
              then repliedAt + skew - decidedAt else old(lateness)
    {
      AwaitReply(others, globalRetryAt);
      Remember(repliedAt, decidedAt, globalRetryAt);
    }

    /** The decision `d`, what others do until its reply arrives, and the cache. */
    method Ask(decidedAt: nat, repliedAt: nat, chat: string, token: nat, after: seq<Op>)
      returns (granted: bool, retryAfterMs: nat, ghost d: Decision)
      requires Valid() && shared.clock <= decidedAt <= repliedAt + skew && shared.doc.decisionToken != Some(token)
      requires Legal(Step(shared.Model(), Op.Acquire(decidedAt, chat, token), limit), after)
      requires globallyBlockedUntil <= repliedAt
      modifies this`globallyBlockedUntil, this`lateness, shared
      ensures Valid()
      ensures d == Update(old(shared.doc), decidedAt, chat, token, limit).1
      ensures granted == d.granted && retryAfterMs == d.retryAt - decidedAt
      ensures shared.Model() == Run(Step(old(shared.Model()), Op.Acquire(decidedAt, chat, token), limit), after, limit)
      ensures d.globalRetryAt <= decidedAt ==>
              globallyBlockedUntil == old(globallyBlockedUntil) && lateness == old(lateness)
      ensures d.globalRetryAt > decidedAt ==> ReplyCached(repliedAt, decidedAt, d.globalRetryAt)
      ensures d.globalRetryAt > decidedAt && after == [] ==>
              OpensAt(shared.Model(), globallyBlockedUntil + skew - lateness, limit)
    {
      var decision;
      decision, granted := Decided(decidedAt, chat, token);
      d, retryAfterMs := decision, decision.retryAt - decidedAt;
      Receive(decidedAt, repliedAt, decision.globalRetryAt, after);
    }

    /** The delay the reply reports is counted from its arrival. */
    ghost predicate ReplyCached(repliedAt: nat, decidedAt: nat, globalRetryAt: nat)
      reads this
    {
      globallyBlockedUntil == repliedAt + (globalRetryAt - decidedAt) && lateness == repliedAt + skew - decidedAt
    }

    /** `acquire`: a cached rejection, or the document's own decision `d`.  The
        worker's clock is read at the start and when the reply has arrived, the
        database's at the decision; `before` and `after` are what others do in between. */
    method Acquire(checkedAt: nat, decidedAt: nat, repliedAt: nat, chat: string, token: nat, before: seq<Op>,
                   after: seq<Op>)
      returns (granted: bool, retryAfterMs: nat, ghost d: Decision)
      requires Valid() && shared.clock <= checkedAt + skew <= decidedAt <= repliedAt + skew
      requires Legal(shared.Model(), before) && Run(shared.Model(), before, limit).clock <= decidedAt
      requires Run(shared.Model(), before, limit).doc.decisionToken != Some(token)
      requires Legal(Step(Run(shared.Model(), before, limit), Op.Acquire(decidedAt, chat, token), limit), after)
      modifies this`globallyBlockedUntil, this`lateness, shared
      ensures Valid()
      ensures old(globallyBlockedUntil) > checkedAt ==>
        && !granted && retryAfterMs == old(globallyBlockedUntil) - checkedAt
        && shared.Model() == old(shared.Model())
        && globallyBlockedUntil == old(globallyBlockedUntil) && lateness == old(lateness)
        && CacheTells(shared.Model(), globallyBlockedUntil, skew, lateness, checkedAt, chat, token, limit)
      ensures old(globallyBlockedUntil) <= checkedAt ==>
        var g := Run(old(shared.Model()), before, limit);
        && d == Update(g.doc, decidedAt, chat, token, limit).1
        && granted == d.granted && retryAfterMs == d.retryAt - decidedAt
        && shared.Model() == Run(Step(g, Op.Acquire(decidedAt, chat, token), limit), after, limit)
      ensures old(globallyBlockedUntil) <= checkedAt && d.globalRetryAt <= decidedAt ==>
        globallyBlockedUntil == old(globallyBlockedUntil) && lateness == old(lateness)
      ensures old(globallyBlockedUntil) <= checkedAt && d.globalRetryAt > decidedAt ==>
        && ReplyCached(repliedAt, decidedAt, d.globalRetryAt)
        && (after == [] ==> OpensAt(shared.Model(), globallyBlockedUntil + skew - lateness, limit))
    {
      if globallyBlockedUntil > checkedAt {
        CachedIsRight(shared.Model(), globallyBlockedUntil, skew, lateness, checkedAt, chat, token, limit);
        return false, globallyBlockedUntil - checkedAt, Decision(false, 0, 0);
      }
      Await(before);
      granted, retryAfterMs, d := Ask(decidedAt, repliedAt, chat, token, after);
    }

    /** `defer`: rejects a negative delay, otherwise extends the cooldown. */
    method Defer(now: nat, ms: real) returns (ok: bool)
      requires Valid() && shared.clock <= now
      modifies shared
      ensures Valid()
      ensures ok <==> ms >= 0.0
      ensures shared.Model() == if ok then Step(old(shared.Model()), Op.Defer(now, ms), limit) else old(shared.Model())
    {
      if ms < 0.0 { return false; }
      StepKeeps(shared.Model(), Op.Defer(now, ms), limit);
      if globallyBlockedUntil > 0 {
        ShutStays(shared.Model(), globallyBlockedUntil + skew - lateness, Op.Defer(now, ms), limit);
      }
      var _ := shared.Apply(Op.Defer(now, ms), limit);
      ok := true;
    }
  }

  /** A cooldown of 10 ms at time 0, seen by a call decided at 1. */
  lemma CooldownIsSeen(chat: string, token: nat)
    ensures var g := Step(FRESH, Defer(0, 10.0), 25); var d := Update(g.doc, 1, chat, token, 25).1;
      Inv(FRESH, 25) && Inv(g, 25) && g == Gate(Document([], 10, None), [], 0) && d.globalRetryAt == d.retryAt == 10
  {
    StepKeeps(FRESH, Defer(0, 10.0), 25);
  }

  /** The cache is wrong: the reply arrives at 5, so calls are rejected until 14,
      although the document would grant one from 10 on. */
  lemma CacheOutlastsCooldown(chat: string, token: nat, checkedAt: nat, other: string, again: nat)
    requires 10 <= checkedAt
    ensures var g := Step(Step(FRESH, Defer(0, 10.0), 25), Acquire(1, chat, token), 25);
      Update(g.doc, checkedAt, other, again, 25).1.granted
  {
    CooldownIsSeen(chat, token);
    CachedIsExact(Step(FRESH, Defer(0, 10.0), 25), 1, 5, 0, chat, token, 10, checkedAt, other, again, 25);
  }

  /** The same on the objects: the call at 12 is rejected, wrongly. */
  method RejectLate(chat: string, other: string) returns (gate: BroadcastRateGate, granted: bool)
    ensures !granted && gate.globallyBlockedUntil == 14 && gate.limit == 25
    ensures Update(gate.shared.doc, 12, other, 3, gate.limit).1.granted
  {
    CooldownIsSeen(chat, 1);
    CacheOutlastsCooldown(chat, 1, 12, other, 3);
    var shared := new SharedDocument();
    gate := new BroadcastRateGate(shared, 25, 0);
    var deferred := gate.Defer(0, 10.0);
    var first, wait, _ := gate.Acquire(0, 1, 5, chat, 1, [], []);
    var late, rest, _ := gate.Acquire(12, 12, 12, other, 2, [], []);
    granted := late;
  }
}
