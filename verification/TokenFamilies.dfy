/**
 Refresh tokens: logins, exchanges and logouts that interleave between database
 operations.  A token is exchanged by revoking it in one conditional update and
 creating its successor in a second one; a token presented after it was revoked
 revokes its whole family.
 */
module TokenFamilies {
  import opened Wrappers

  /** A stored token; its key in the collection is the hash of the token. */
  datatype Token = Token(family: nat, expiresAt: nat, revoked: bool, replacedBy: Option<nat>)

  type Tokens = map<nat, Token>

  /** Where a request stands between two database operations. */
  datatype Phase =
    | Idle
    | Found(token: nat)
    | Reusing(family: nat)
    | Issuing(family: nat, claimed: Option<nat>)
    | Linking(parent: nat, child: nat)

  /** The collection and the clock; `lines`, `parents` and `exchanged` are history:
      each family's tokens as they were created, the token each was created
      for, and every successful claim. */
  datatype State = State(tokens: Tokens, now: nat, workers: map<nat, Phase>,
                         lines: map<nat, seq<nat>>, parents: map<nat, nat>, exchanged: seq<nat>)

  datatype Event =
    | Login(worker: nat, newFamily: nat)
    | Present(worker: nat, presented: nat)
    | AdminGone(worker: nat)
    | Claim(worker: nat)
    | RevokeFamily(worker: nat)
    | Create(worker: nat, id: nat, ttl: nat)
    | Link(worker: nat)
    | Logout(presented: nat)
    | Crash(worker: nat)
    | Tick(ms: nat)

  // ---- Database operations -------------------------------------------------

  function Revoked(tokens: Tokens, id: nat): Tokens
    requires id in tokens
  {
    tokens[id := tokens[id].(revoked := true)]
  }

  function FamilyRevoked(tokens: Tokens, family: nat): Tokens {
    map id | id in tokens :: if tokens[id].family == family then tokens[id].(revoked := true) else tokens[id]
  }

  predicate Claimable(tokens: Tokens, now: nat, id: nat) {
    id in tokens && !tokens[id].revoked && tokens[id].expiresAt > now
  }

  function Linked(tokens: Tokens, parent: nat, child: nat): Tokens {
    if parent in tokens then tokens[parent := tokens[parent].(replacedBy := Some(child))] else tokens
  }

  // ---- Steps ---------------------------------------------------------------

  function PhaseOf(s: State, w: nat): Phase { if w in s.workers then s.workers[w] else Idle }

  function Goto(s: State, w: nat, phase: Phase): State { s.(workers := s.workers[w := phase]) }

  function Presented(s: State, w: nat, id: nat): State {
    if id !in s.tokens || s.tokens[id].expiresAt <= s.now then s
    else if s.tokens[id].revoked then Goto(s, w, Reusing(s.tokens[id].family))
    else Goto(s, w, Found(id))
  }

  function Claimed(s: State, w: nat, id: nat): State
    requires id in s.tokens
  {
    if Claimable(s.tokens, s.now, id) then
      Goto(s, w, Issuing(s.tokens[id].family, Some(id)))
      .(tokens := Revoked(s.tokens, id), exchanged := s.exchanged + [id])
    else Goto(s, w, Reusing(s.tokens[id].family))
  }

  function Line(s: State, family: nat): seq<nat> { if family in s.lines then s.lines[family] else [] }

  function Created(s: State, w: nat, family: nat, claimed: Option<nat>, id: nat, ttl: nat): State {
    var next := match claimed case None => Idle case Some(p) => Linking(p, id);
    Goto(s, w, next).(
      tokens := s.tokens[id := Token(family, s.now + ttl, false, None)],
      lines := s.lines[family := Line(s, family) + [id]],
      parents := match claimed case None => s.parents case Some(p) => s.parents[id := p])
  }

  /** One step; an event that is not enabled changes nothing.  New families and
      tokens are fresh. */
  function Step(s: State, e: Event): State {
    match e
    case Login(w, f) =>
      if PhaseOf(s, w) == Idle && f !in s.lines then Goto(s, w, Issuing(f, None)).(lines := s.lines[f := []]) else s
    case Present(w, id) => if PhaseOf(s, w) == Idle then Presented(s, w, id) else s
    case AdminGone(w) => if PhaseOf(s, w).Found? then Goto(s, w, Idle) else s
    case Claim(w) => (match PhaseOf(s, w) case Found(id) => if id in s.tokens then Claimed(s, w, id) else s case _ => s)
    case RevokeFamily(w) =>
      (match PhaseOf(s, w) case Reusing(f) => Goto(s, w, Idle).(tokens := FamilyRevoked(s.tokens, f)) case _ => s)
    case Create(w, id, ttl) =>
      (match PhaseOf(s, w)
       case Issuing(f, c) => if id !in s.tokens then Created(s, w, f, c, id, ttl) else s
       case _ => s)
    case Link(w) =>
      (match PhaseOf(s, w)
       case Linking(p, c) => Goto(s, w, Idle).(tokens := Linked(s.tokens, p, c))
       case _ => s)
    case Logout(id) => if id in s.tokens then s.(tokens := Revoked(s.tokens, id)) else s
    case Crash(w) => Goto(s, w, Idle)
    case Tick(ms) => s.(now := s.now + ms)
  }

  function Run(s: State, events: seq<Event>): State
    decreases |events|
  {
    if events == [] then s else Run(Step(s, events[0]), events[1..])
  }

  const EMPTY: State := State(map[], 0, map[], map[], map[], [])

  // ---- The invariant -------------------------------------------------------

  type Lines = map<nat, seq<nat>>
  type Workers = map<nat, Phase>
  type Parents = map<nat, nat>

  predicate Last(lines: Lines, family: nat, id: nat) {
    family in lines && lines[family] != [] && lines[family][|lines[family]| - 1] == id
  }

  /** A family's line holds its tokens, each once. */
  ghost predicate LinesHold(tokens: Tokens, lines: Lines) {
    && (forall id :: id in tokens ==> tokens[id].family in lines && id in lines[tokens[id].family])
    && (forall f, k :: f in lines && 0 <= k < |lines[f]| ==> lines[f][k] in tokens && tokens[lines[f][k]].family == f)
    && (forall f, j, k :: f in lines && 0 <= j < k < |lines[f]| ==> lines[f][j] != lines[f][k])
  }

  /** Only the newest token of a family can be live. */
  ghost predicate LiveIsLast(tokens: Tokens, lines: Lines) {
    forall id :: id in tokens && !tokens[id].revoked ==> Last(lines, tokens[id].family, id)
  }

  predicate PhaseFits(phase: Phase, tokens: Tokens, lines: Lines, parents: Parents, exchanged: seq<nat>) {
    match phase
    case Idle => true
    case Found(id) => id in tokens
    case Reusing(f) => f in lines
    case Issuing(f, None) => f in lines && lines[f] == []
    case Issuing(f, Some(p)) => Last(lines, f, p) && p in tokens && tokens[p].revoked && p in exchanged
    case Linking(p, c) => c in parents && parents[c] == p && p in exchanged
  }

  ghost predicate PhasesFit(workers: Workers, tokens: Tokens, lines: Lines, parents: Parents, exchanged: seq<nat>) {
    forall w :: w in workers ==> PhaseFits(workers[w], tokens, lines, parents, exchanged)
  }

  predicate IssuingFor(workers: Workers, w: nat, family: nat) {
    w in workers && workers[w].Issuing? && workers[w].family == family
  }

  ghost predicate OneIssuer(workers: Workers) {
    forall v, w, f :: IssuingFor(workers, v, f) && IssuingFor(workers, w, f) ==> v == w
  }

  ghost predicate ExchangedOnce(tokens: Tokens, exchanged: seq<nat>) {
    && (forall j, k :: 0 <= j < k < |exchanged| ==> exchanged[j] != exchanged[k])
    && (forall id :: id in exchanged ==> id in tokens && tokens[id].revoked)
  }

  /** Every token but a family's first was created for the one before it. */
  ghost predicate Chained(lines: Lines, parents: Parents) {
    && (forall f, k :: f in lines && 0 < k < |lines[f]| ==>
         lines[f][k] in parents && parents[lines[f][k]] == lines[f][k - 1])
    && (forall f :: f in lines && lines[f] != [] ==> lines[f][0] !in parents)
  }

  ghost predicate ParentsKnown(tokens: Tokens, parents: Parents, exchanged: seq<nat>) {
    forall c :: c in parents ==> c in tokens && parents[c] in exchanged
  }

  ghost predicate LinksRight(tokens: Tokens, parents: Parents) {
    forall p :: p in tokens && tokens[p].replacedBy.Some? ==>
      tokens[p].replacedBy.value in parents && parents[tokens[p].replacedBy.value] == p
  }

  ghost predicate Inv(s: State) {
    && LinesHold(s.tokens, s.lines) && LiveIsLast(s.tokens, s.lines)
    && PhasesFit(s.workers, s.tokens, s.lines, s.parents, s.exchanged) && OneIssuer(s.workers)
    && ExchangedOnce(s.tokens, s.exchanged) && Chained(s.lines, s.parents)
    && ParentsKnown(s.tokens, s.parents, s.exchanged) && LinksRight(s.tokens, s.parents)
  }

  predicate Live(s: State, id: nat) { id in s.tokens && !s.tokens[id].revoked }

  predicate Issues(s: State, w: nat, family: nat) { IssuingFor(s.workers, w, family) }

  // ---- Every step keeps it -------------------------------------------------

  lemma PhaseChange(s: State, w: nat, phase: Phase)
    requires Inv(s) && PhaseFits(phase, s.tokens, s.lines, s.parents, s.exchanged) && !phase.Issuing?
    ensures Inv(Goto(s, w, phase))
  {
    var t := Goto(s, w, phase);
    forall v, u, f | IssuingFor(t.workers, v, f) && IssuingFor(t.workers, u, f) ensures v == u {
      assert IssuingFor(s.workers, v, f) && IssuingFor(s.workers, u, f);
    }
  }

  lemma EmptyLineHolds(tokens: Tokens, lines: Lines, parents: Parents, f: nat)
    requires LinesHold(tokens, lines) && LiveIsLast(tokens, lines) && Chained(lines, parents) && f !in lines
    ensures LinesHold(tokens, lines[f := []]) && LiveIsLast(tokens, lines[f := []]) && Chained(lines[f := []], parents)
  {
  }

  lemma EmptyLine(s: State, f: nat)
    requires Inv(s) && f !in s.lines
    ensures Inv(s.(lines := s.lines[f := []]))
  {
    var lines := s.lines[f := []];
    EmptyLineHolds(s.tokens, s.lines, s.parents, f);
    forall w | w in s.workers ensures PhaseFits(s.workers[w], s.tokens, lines, s.parents, s.exchanged) {
      assert PhaseFits(s.workers[w], s.tokens, s.lines, s.parents, s.exchanged);
    }
  }

  lemma NewFamily(s: State, w: nat, f: nat)
    requires Inv(s) && f !in s.lines
    ensures Inv(Goto(s, w, Issuing(f, None)).(lines := s.lines[f := []]))
  {
    NobodyIssues(s, f);
    OnlyNewIssuer(s.workers, w, Issuing(f, None));
    EmptyLine(s, f);
    NewPhase(s.(lines := s.lines[f := []]), w, Issuing(f, None));
  }

  lemma NobodyIssues(s: State, f: nat)
    requires Inv(s) && f !in s.lines
    ensures forall v :: !IssuingFor(s.workers, v, f)
  {
  }

  lemma OnlyNewIssuer(workers: Workers, w: nat, phase: Phase)
    requires OneIssuer(workers) && phase.Issuing? && forall v :: !IssuingFor(workers, v, phase.family)
    ensures OneIssuer(workers[w := phase])
  {
    var t := workers[w := phase];
    forall v, u, f | IssuingFor(t, v, f) && IssuingFor(t, u, f) ensures v == u {
      assert v != w ==> IssuingFor(workers, v, f);
      assert u != w ==> IssuingFor(workers, u, f);
    }
  }

  /** Tokens keep their family and are never made live again. */
  ghost predicate Later(a: Tokens, b: Tokens) {
    b.Keys == a.Keys && forall id :: id in a ==> b[id].family == a[id].family && (a[id].revoked ==> b[id].revoked)
  }

  lemma TokensChange(s: State, tokens: Tokens)
    requires Inv(s) && Later(s.tokens, tokens) && LinksRight(tokens, s.parents)
    ensures Inv(s.(tokens := tokens))
  {
  }

  lemma NoOtherIssuer(s: State, v: nat, id: nat)
    requires Inv(s) && Live(s, id)
    ensures !Issues(s, v, s.tokens[id].family)
  {
  }

  lemma LogExchange(s: State, id: nat)
    requires Inv(s) && id in s.tokens && s.tokens[id].revoked && id !in s.exchanged
    ensures Inv(s.(exchanged := s.exchanged + [id]))
  {
  }

  lemma RevokedIsLater(tokens: Tokens, parents: Parents, id: nat)
    requires LinksRight(tokens, parents) && id in tokens
    ensures Later(tokens, Revoked(tokens, id)) && LinksRight(Revoked(tokens, id), parents)
  {
  }

  lemma RevokeKeeps(s: State, id: nat)
    requires Inv(s) && id in s.tokens
    ensures Inv(s.(tokens := Revoked(s.tokens, id)))
  {
    RevokedIsLater(s.tokens, s.parents, id);
    TokensChange(s, Revoked(s.tokens, id));
  }

  lemma LiveIsNew(s: State, id: nat)
    requires Inv(s) && Live(s, id)
    ensures Last(s.lines, s.tokens[id].family, id) && id !in s.exchanged
    ensures forall v :: !IssuingFor(s.workers, v, s.tokens[id].family)
  {
  }

  lemma ClaimKeeps(s: State, w: nat, id: nat)
    requires Inv(s) && id in s.tokens
    ensures Inv(Claimed(s, w, id))
  {
    var f := s.tokens[id].family;
    if Claimable(s.tokens, s.now, id) {
      LiveIsNew(s, id);
      RevokeKeeps(s, id);
      OnlyNewIssuer(s.workers, w, Issuing(f, Some(id)));
      var r := s.(tokens := Revoked(s.tokens, id));
      LogExchange(r, id);
      NewPhase(r.(exchanged := s.exchanged + [id]), w, Issuing(f, Some(id)));
    } else { PhaseChange(s, w, Reusing(f)); }
  }

  lemma NewPhase(s: State, w: nat, phase: Phase)
    requires Inv(s) && PhaseFits(phase, s.tokens, s.lines, s.parents, s.exchanged) && OneIssuer(s.workers[w := phase])
    ensures Inv(Goto(s, w, phase))
  {
  }

  lemma CreateLines(tokens: Tokens, lines: Lines, f: nat, id: nat, token: Token)
    requires LinesHold(tokens, lines) && f in lines && id !in tokens && token.family == f
    ensures LinesHold(tokens[id := token], lines[f := lines[f] + [id]])
  {
  }

  lemma CreateChain(tokens: Tokens, lines: Lines, parents: Parents, f: nat, claimed: Option<nat>, id: nat)
    requires LinesHold(tokens, lines) && Chained(lines, parents) && f in lines && id !in tokens && id !in parents
    requires match claimed case None => lines[f] == [] case Some(p) => Last(lines, f, p)
    ensures Chained(lines[f := lines[f] + [id]], match claimed case None => parents case Some(p) => parents[id := p])
  {
  }

  lemma CreateLive(tokens: Tokens, lines: Lines, f: nat, id: nat, token: Token)
    requires LinesHold(tokens, lines) && LiveIsLast(tokens, lines) && f in lines && id !in tokens && token.family == f
    requires forall u :: u in tokens && tokens[u].family == f ==> tokens[u].revoked
    ensures LiveIsLast(tokens[id := token], lines[f := lines[f] + [id]])
  {
  }

  /** Nothing of a family is live while a request issues for it. */
  lemma IssuerMeansNoneLive(s: State, w: nat)
    requires Inv(s) && w in s.workers && s.workers[w].Issuing?
    ensures forall u :: u in s.tokens && s.tokens[u].family == s.workers[w].family ==> s.tokens[u].revoked
  {
  }

  lemma CreatePhases(s: State, w: nat, id: nat, ttl: nat)
    requires Inv(s) && w in s.workers && s.workers[w].Issuing? && id !in s.tokens
    ensures var t := Created(s, w, s.workers[w].family, s.workers[w].claimed, id, ttl);
      PhasesFit(t.workers, t.tokens, t.lines, t.parents, t.exchanged) && OneIssuer(t.workers)
  {
    var f := s.workers[w].family;
    var t := Created(s, w, f, s.workers[w].claimed, id, ttl);
    assert PhaseFits(s.workers[w], s.tokens, s.lines, s.parents, s.exchanged);
    forall v | v in t.workers ensures PhaseFits(t.workers[v], t.tokens, t.lines, t.parents, t.exchanged) {
      if v != w { OtherPhaseFits(s, w, id, ttl, v); }
    }
    forall v, u, g | IssuingFor(t.workers, v, g) && IssuingFor(t.workers, u, g) ensures v == u {
      assert IssuingFor(s.workers, v, g) && IssuingFor(s.workers, u, g);
    }
  }

  lemma OtherPhaseFits(s: State, w: nat, id: nat, ttl: nat, v: nat)
    requires Inv(s) && w in s.workers && s.workers[w].Issuing? && id !in s.tokens && v != w && v in s.workers
    ensures var t := Created(s, w, s.workers[w].family, s.workers[w].claimed, id, ttl);
      PhaseFits(s.workers[v], t.tokens, t.lines, t.parents, t.exchanged)
  {
    var f := s.workers[w].family;
    assert PhaseFits(s.workers[v], s.tokens, s.lines, s.parents, s.exchanged);
    assert IssuingFor(s.workers, w, f);
    assert !IssuingFor(s.workers, v, f);
  }

  lemma CreateExchanged(tokens: Tokens, exchanged: seq<nat>, id: nat, token: Token)
    requires ExchangedOnce(tokens, exchanged) && id !in tokens
    ensures ExchangedOnce(tokens[id := token], exchanged)
  {
  }

  lemma CreateParents(tokens: Tokens, parents: Parents, exchanged: seq<nat>, claimed: Option<nat>, id: nat,
                      token: Token)
    requires ParentsKnown(tokens, parents, exchanged) && LinksRight(tokens, parents) && id !in tokens &&
             token.replacedBy == None
    requires match claimed case None => true case Some(p) => p in exchanged
    ensures var more := match claimed case None => parents case Some(p) => parents[id := p];
      ParentsKnown(tokens[id := token], more, exchanged) && LinksRight(tokens[id := token], more)
  {
  }

  lemma CreateKeeps(s: State, w: nat, id: nat, ttl: nat)
    requires Inv(s) && w in s.workers && s.workers[w].Issuing? && id !in s.tokens
    ensures Inv(Created(s, w, s.workers[w].family, s.workers[w].claimed, id, ttl))
  {
    var f, c := s.workers[w].family, s.workers[w].claimed;
    var token := Token(f, s.now + ttl, false, None);
    assert PhaseFits(s.workers[w], s.tokens, s.lines, s.parents, s.exchanged);
    var t := Created(s, w, f, c, id, ttl);
    assert t.tokens == s.tokens[id := token] && t.lines == s.lines[f := s.lines[f] + [id]];
    assert t.parents == match c case None => s.parents case Some(p) => s.parents[id := p];
    CreateParts(s, w, f, c, id, token);
    CreatePhases(s, w, id, ttl);
  }

  lemma CreateParts(s: State, w: nat, f: nat, c: Option<nat>, id: nat, token: Token)
    requires Inv(s) && w in s.workers && s.workers[w] == Issuing(f, c) && id !in s.tokens
    requires PhaseFits(s.workers[w], s.tokens, s.lines, s.parents, s.exchanged)
    requires token.family == f && token.replacedBy == None
    ensures var tokens, lines := s.tokens[id := token], s.lines[f := s.lines[f] + [id]];
      var parents := match c case None => s.parents case Some(p) => s.parents[id := p];
      && LinesHold(tokens, lines) && LiveIsLast(tokens, lines) && Chained(lines, parents)
      && ExchangedOnce(tokens, s.exchanged) && ParentsKnown(tokens, parents, s.exchanged) && LinksRight(tokens, parents)
  {
    assert LinesHold(s.tokens[id := token], s.lines[f := s.lines[f] + [id]]) by {
      CreateLines(s.tokens, s.lines, f, id, token);
    }
    assert LiveIsLast(s.tokens[id := token], s.lines[f := s.lines[f] + [id]]) by {
      IssuerMeansNoneLive(s, w);
      CreateLive(s.tokens, s.lines, f, id, token);
    }
    CreateChain(s.tokens, s.lines, s.parents, f, c, id);
    CreateExchanged(s.tokens, s.exchanged, id, token);
    CreateParents(s.tokens, s.parents, s.exchanged, c, id, token);
  }

  lemma LinkKeeps(s: State, w: nat, p: nat, c: nat)
    requires Inv(s) && PhaseOf(s, w) == Linking(p, c)
    ensures Inv(Goto(s, w, Idle).(tokens := Linked(s.tokens, p, c)))
  {
    assert PhaseFits(s.workers[w], s.tokens, s.lines, s.parents, s.exchanged);
    PhaseChange(s, w, Idle);
    TokensChange(Goto(s, w, Idle), Linked(s.tokens, p, c));
  }

  lemma PresentKeeps(s: State, w: nat, id: nat)
    requires Inv(s)
    ensures Inv(Presented(s, w, id))
  {
    if id in s.tokens {
      PhaseChange(s, w, Found(id));
      PhaseChange(s, w, Reusing(s.tokens[id].family));
    }
  }

  lemma FamilyRevokedIsLater(tokens: Tokens, parents: Parents, f: nat)
    requires LinksRight(tokens, parents)
    ensures Later(tokens, FamilyRevoked(tokens, f)) && LinksRight(FamilyRevoked(tokens, f), parents)
  {
  }

  lemma RevokeFamilyKeeps(s: State, w: nat, f: nat)
    requires Inv(s)
    ensures Inv(Goto(s, w, Idle).(tokens := FamilyRevoked(s.tokens, f)))
  {
    var tokens := FamilyRevoked(s.tokens, f);
    FamilyRevokedIsLater(s.tokens, s.parents, f);
    TokensChange(s, tokens);
    PhaseChange(s.(tokens := tokens), w, Idle);
  }

  lemma FoundIsStored(s: State, w: nat)
    requires Inv(s) && PhaseOf(s, w).Found?
    ensures PhaseOf(s, w).token in s.tokens
  {
  }

  lemma ClaimStepKeeps(s: State, w: nat)
    requires Inv(s)
    ensures Inv(Step(s, Claim(w)))
  {
    if PhaseOf(s, w).Found? { FoundIsStored(s, w); ClaimKeeps(s, w, PhaseOf(s, w).token); }
  }

  lemma RevokeStepKeeps(s: State, w: nat)
    requires Inv(s)
    ensures Inv(Step(s, RevokeFamily(w)))
  {
    if PhaseOf(s, w).Reusing? { RevokeFamilyKeeps(s, w, PhaseOf(s, w).family); }
  }

  lemma CreateStepKeeps(s: State, w: nat, id: nat, ttl: nat)
    requires Inv(s)
    ensures Inv(Step(s, Create(w, id, ttl)))
  {
    if PhaseOf(s, w).Issuing? && id !in s.tokens { CreateKeeps(s, w, id, ttl); }
  }

  lemma LinkStepKeeps(s: State, w: nat)
    requires Inv(s)
    ensures Inv(Step(s, Link(w)))
  {
    if PhaseOf(s, w).Linking? { LinkKeeps(s, w, PhaseOf(s, w).parent, PhaseOf(s, w).child); }
  }

  lemma StepKeeps(s: State, e: Event)
    requires Inv(s)
    ensures Inv(Step(s, e))
  {
    match e
    case Login(w, f) => if f !in s.lines { NewFamily(s, w, f); }
    case Present(w, id) => PresentKeeps(s, w, id);
    case AdminGone(w) => PhaseChange(s, w, Idle);
    case Claim(w) => ClaimStepKeeps(s, w);
    case RevokeFamily(w) => RevokeStepKeeps(s, w);
    case Create(w, id, ttl) => CreateStepKeeps(s, w, id, ttl);
    case Link(w) => LinkStepKeeps(s, w);
    case Logout(id) => if id in s.tokens { RevokeKeeps(s, id); }
    case Crash(w) => PhaseChange(s, w, Idle);
    case Tick(ms) =>
  }

  /** Main result: under every interleaving of logins, refreshes, logouts, reuse
      revocations, crashes and clock ticks the invariant holds. */
  lemma {:induction false} RunKeeps(s: State, events: seq<Event>)
    requires Inv(s)
    ensures Inv(Run(s, events))
    decreases |events|
  {
    if events != [] {
      StepKeeps(s, events[0]);
      RunKeeps(Step(s, events[0]), events[1..]);
    }
  }

  lemma EmptyIsGood()
    ensures Inv(EMPTY)
  {
  }

  // ---- One holder, one successor -------------------------------------------

  function LiveTokens(s: State, f: nat): set<nat> { set id | id in s.tokens && Live(s, id) && s.tokens[id].family == f }

  function Issuers(s: State, f: nat): set<nat> { set w | w in s.workers && Issues(s, w, f) }

  lemma AtMostOne(all: set<nat>)
    requires forall a, b :: a in all && b in all ==> a == b
    ensures |all| <= 1
  {
    if a :| a in all { assert all == {a}; }
  }

  /** Main result: at every moment of every run a family has at most one live
      token or one request about to create one, never both; no token was ever
      exchanged twice. */
  lemma OneHolder(events: seq<Event>, family: nat)
    ensures var s := Run(EMPTY, events);
      && |LiveTokens(s, family)| + |Issuers(s, family)| <= 1
      && forall j, k :: 0 <= j < k < |s.exchanged| ==> s.exchanged[j] != s.exchanged[k]
  {
    EmptyIsGood();
    RunKeeps(EMPTY, events);
    var s := Run(EMPTY, events);
    forall a, b | a in LiveTokens(s, family) && b in LiveTokens(s, family) ensures a == b {
      assert Last(s.lines, family, a) && Last(s.lines, family, b);
    }
    AtMostOne(LiveTokens(s, family));
    AtMostOne(Issuers(s, family));
    forall id, w | id in LiveTokens(s, family) ensures w !in Issuers(s, family) { NoOtherIssuer(s, w, id); }
    if id :| id in LiveTokens(s, family) { assert Issuers(s, family) == {}; }
    else { assert LiveTokens(s, family) == {}; }
  }

  lemma SamePlace(s: State, f: nat, j: nat, k: nat)
    requires Inv(s) && f in s.lines && j < |s.lines[f]| && k < |s.lines[f]| && s.lines[f][j] == s.lines[f][k]
    ensures j == k
  {
  }

  /** Where a successor stands in its family's line. */
  lemma SuccessorPlace(s: State, c: nat) returns (f: nat, k: nat)
    requires Inv(s) && c in s.parents
    ensures c in s.tokens && f == s.tokens[c].family && f in s.lines && 0 < k < |s.lines[f]|
    ensures s.lines[f][k] == c && s.lines[f][k - 1] == s.parents[c]
  {
    f := s.tokens[c].family;
    assert c in s.lines[f];
    k :| 0 <= k < |s.lines[f]| && s.lines[f][k] == c;
  }

  /** Main result: in every run a token has at most one successor, of its own
      family, and a stored link names exactly that one, so the successors of a
      login form a single chain. */
  lemma SuccessorsFormAChain(events: seq<Event>, c: nat, d: nat)
    requires var s := Run(EMPTY, events); c in s.parents && d in s.parents && s.parents[c] == s.parents[d]
    ensures var s := Run(EMPTY, events); var p := s.parents[c];
      && c == d && p != c && p in s.tokens && c in s.tokens
      && s.tokens[p].family == s.tokens[c].family && s.tokens[p].revoked
      && (s.tokens[p].replacedBy == None || s.tokens[p].replacedBy == Some(c))
  {
    EmptyIsGood();
    RunKeeps(EMPTY, events);
    var s := Run(EMPTY, events);
    var f, k := SuccessorPlace(s, c);
    var g, j := SuccessorPlace(s, d);
    var p := s.parents[c];
    assert s.tokens[s.lines[f][k - 1]].family == f && s.tokens[s.lines[g][j - 1]].family == g;
    assert s.lines[f][k - 1] != s.lines[f][k];
    SamePlace(s, f, k - 1, j - 1);
    if s.tokens[p].replacedBy.Some? { LinkNamesSuccessor(s, p, c); }
  }

  lemma LinkNamesSuccessor(s: State, p: nat, c: nat)
    requires Inv(s) && c in s.parents && s.parents[c] == p && p in s.tokens && s.tokens[p].replacedBy.Some?
    ensures s.tokens[p].replacedBy == Some(c)
  {
    var d := s.tokens[p].replacedBy.value;
    var f, k := SuccessorPlace(s, c);
    var g, j := SuccessorPlace(s, d);
    assert s.tokens[s.lines[f][k - 1]].family == f && s.tokens[s.lines[g][j - 1]].family == g;
    SamePlace(s, f, k - 1, j - 1);
  }

  // ---- Reuse ---------------------------------------------------------------

  ghost predicate HasLive(s: State, family: nat) { exists id :: Live(s, id) && s.tokens[id].family == family }

  /** No token of the family is live now or after anything that may follow. */
  ghost predicate Ended(s: State, family: nat) { forall events :: !HasLive(Run(s, events), family) }

  ghost predicate Dead(s: State, family: nat) {
    && family in s.lines
    && (forall id :: Live(s, id) ==> s.tokens[id].family != family)
    && (forall w :: !Issues(s, w, family))
  }

  lemma DeadStep(s: State, e: Event, family: nat)
    requires Dead(s, family)
    ensures Dead(Step(s, e), family)
  {
    var t := Step(s, e);
    forall w ensures !Issues(t, w, family) { assert !Issues(s, w, family); }
    forall id | Live(t, id) ensures t.tokens[id].family != family {
      if id in s.tokens { assert Live(s, id); }
      else { assert e.Create? && !Issues(s, e.worker, family); }
    }
  }

  lemma {:induction false} DeadForever(s: State, events: seq<Event>, family: nat)
    requires Dead(s, family)
    ensures Dead(Run(s, events), family)
    decreases |events|
  {
    if events != [] {
      DeadStep(s, events[0], family);
      DeadForever(Step(s, events[0]), events[1..], family);
    }
  }

  lemma {:induction false} FreshId(ids: set<nat>) returns (id: nat)
    ensures id !in ids && forall i :: i in ids ==> i < id
    decreases |ids|
  {
    if ids == {} { id := 0; }
    else {
      var i :| i in ids;
      id := FreshId(ids - {i});
      if id <= i { id := i + 1; }
      forall x | x in ids ensures x < id { assert x == i || x in ids - {i}; }
    }
  }

  function Detected(s: State, w: nat, id: nat): State { Step(Step(s, Present(w, id)), RevokeFamily(w)) }

  /** Main result: whatever happened since the revoked token was presented, the
      revocation that follows ends the family for good if and only if no request
      is about to create a token of it at that moment. */
  lemma RevocationEndsFamily(s: State, w: nat, f: nat)
    requires Inv(s) && PhaseOf(s, w) == Reusing(f)
    ensures Ended(Step(s, RevokeFamily(w)), f) <==> forall v :: !Issues(s, v, f)
  {
    var t := Step(s, RevokeFamily(w));
    assert forall v :: v != w ==> PhaseOf(t, v) == PhaseOf(s, v);
    if v :| Issues(s, v, f) {
      assert Issues(t, v, f);
      IssuerRevives(t, v, f);
    } else {
      DeadAfterRevocation(s, w, f);
      forall events ensures !HasLive(Run(t, events), f) { DeadForever(t, events, f); }
    }
  }

  lemma DeadAfterRevocation(s: State, w: nat, f: nat)
    requires Inv(s) && PhaseOf(s, w) == Reusing(f) && forall v :: !Issues(s, v, f)
    ensures Dead(Step(s, RevokeFamily(w)), f)
  {
    assert PhaseFits(s.workers[w], s.tokens, s.lines, s.parents, s.exchanged);
    var t := Step(s, RevokeFamily(w));
    forall v ensures !Issues(t, v, f) { assert !Issues(s, v, f); }
  }

  lemma IssuerRevives(t: State, v: nat, f: nat)
    requires Issues(t, v, f)
    ensures exists events :: HasLive(Run(t, events), f)
  {
    var id := FreshId(t.tokens.Keys);
    var events := [Create(v, id, 1)];
    assert events[1..] == [] && Run(t, events) == Step(t, events[0]);
    assert Live(Run(t, events), id);
    assert HasLive(Run(t, events), f);
  }

  /** Main result: presenting a revoked token ends its family for good if and only
      if no request is about to create a token of it and, once the token has
      expired, none is live: an expired token is refused before the check. */
  lemma ReuseEndsFamily(s: State, w: nat, id: nat)
    requires Inv(s) && PhaseOf(s, w) == Idle && id in s.tokens && s.tokens[id].revoked
    ensures var f := s.tokens[id].family;
      Ended(Detected(s, w, id), f) <==>
      (forall v :: !Issues(s, v, f)) && (s.tokens[id].expiresAt > s.now || !HasLive(s, f))
  {
    if s.tokens[id].expiresAt > s.now {
      var f, found := s.tokens[id].family, Step(s, Present(w, id));
      RevokedIsReuse(s, w, id);
      RevocationEndsFamily(found, w, f);
      assert Detected(s, w, id) == Step(found, RevokeFamily(w));
    } else { ExpiredReuse(s, w, id); }
  }

  lemma RevokedIsReuse(s: State, w: nat, id: nat)
    requires Inv(s) && PhaseOf(s, w) == Idle && id in s.tokens && s.tokens[id].revoked && s.tokens[id].expiresAt > s.now
    ensures var found, f := Step(s, Present(w, id)), s.tokens[id].family;
      Inv(found) && PhaseOf(found, w) == Reusing(f) && forall v :: Issues(found, v, f) <==> Issues(s, v, f)
  {
    PresentKeeps(s, w, id);
    var found, f := Step(s, Present(w, id)), s.tokens[id].family;
    forall v ensures Issues(found, v, f) <==> Issues(s, v, f) { assert v != w ==> PhaseOf(found, v) == PhaseOf(s, v); }
  }

  lemma ExpiredReuse(s: State, w: nat, id: nat)
    requires Inv(s) && PhaseOf(s, w) == Idle && id in s.tokens && s.tokens[id].expiresAt <= s.now
    ensures Detected(s, w, id) == s
    ensures var f := s.tokens[id].family;
      Ended(s, f) <==> (forall v :: !Issues(s, v, f)) && !HasLive(s, f)
  {
    var f := s.tokens[id].family;
    assert Run(s, []) == s;
    if v :| Issues(s, v, f) { IssuerRevives(s, v, f); }
    else if !HasLive(s, f) {
      assert Dead(s, f);
      forall events ensures !HasLive(Run(s, events), f) { DeadForever(s, events, f); }
    }
  }

  /** One session: its first token is exchanged by worker 1; before the successor
      is stored worker 2 presents it again and is detected. */
  const OVERTAKEN: seq<Event> :=
    [Login(0, 0), Create(0, 0, 10), Present(1, 0), Claim(1), Present(2, 0), RevokeFamily(2), Create(1, 1, 10)]

  /** A refresh that has claimed its token survives the detection of its reuse. */
  lemma ClaimedRefreshSurvives()
    ensures PhaseOf(Run(EMPTY, OVERTAKEN[..5]), 2) == Reusing(0) && HasLive(Run(EMPTY, OVERTAKEN), 0)
  {
    SessionIsClaimed();
    SessionIsRevoked(Run(EMPTY, OVERTAKEN[..4]));
    RunThen(EMPTY, OVERTAKEN[..4], Present(2, 0));
    assert OVERTAKEN[..4] + [Present(2, 0)] == OVERTAKEN[..5];
    RunThen(EMPTY, OVERTAKEN[..5], RevokeFamily(2));
    assert OVERTAKEN[..5] + [RevokeFamily(2)] == OVERTAKEN[..6];
    RunThen(EMPTY, OVERTAKEN[..6], Create(1, 1, 10));
    assert OVERTAKEN[..6] + [Create(1, 1, 10)] == OVERTAKEN;
  }

  predicate Overtaken(s: State) {
    && s.tokens.Keys == {0} && s.tokens[0] == Token(0, 10, true, None) && s.now == 0
    && s.workers == map[0 := Idle, 1 := Issuing(0, Some(0))]
  }

  lemma SessionIsRevoked(s: State)
    requires Overtaken(s) && PhaseOf(s, 2) == Idle
    ensures var reusing := Step(s, Present(2, 0));
      PhaseOf(reusing, 2) == Reusing(0) && HasLive(Step(Step(reusing, RevokeFamily(2)), Create(1, 1, 10)), 0)
  {
    var revoked := Step(Step(s, Present(2, 0)), RevokeFamily(2));
    assert PhaseOf(revoked, 1) == Issuing(0, Some(0)) && 1 !in revoked.tokens;
    assert Live(Step(revoked, Create(1, 1, 10)), 1);
  }

  lemma SessionIsClaimed()
    ensures var s := Run(EMPTY, OVERTAKEN[..4]); Overtaken(s) && PhaseOf(s, 2) == Idle
  {
    RunThen(EMPTY, [], Login(0, 0));
    assert [] + [Login(0, 0)] == OVERTAKEN[..1];
    RunThen(EMPTY, OVERTAKEN[..1], Create(0, 0, 10));
    assert OVERTAKEN[..1] + [Create(0, 0, 10)] == OVERTAKEN[..2];
    RunThen(EMPTY, OVERTAKEN[..2], Present(1, 0));
    assert OVERTAKEN[..2] + [Present(1, 0)] == OVERTAKEN[..3];
    RunThen(EMPTY, OVERTAKEN[..3], Claim(1));
    assert OVERTAKEN[..3] + [Claim(1)] == OVERTAKEN[..4];
    var stored := Step(Step(EMPTY, Login(0, 0)), Create(0, 0, 10));
    assert stored.tokens == map[0 := Token(0, 10, false, None)] && PhaseOf(stored, 1) == Idle;
    var found := Step(stored, Present(1, 0));
    assert PhaseOf(found, 1) == Found(0) && found.tokens == stored.tokens;
  }

  /** The same session, whose successor is stored and linked before the first
      token expires. */
  const OUTLIVED: seq<Event> := OVERTAKEN[..4] + [Tick(5)] + [Create(1, 1, 10)] + [Link(1)] + [Tick(5)]

  predicate Outlived(s: State) {
    && s.tokens.Keys == {0, 1} && s.tokens[0] == Token(0, 10, true, Some(1)) && s.tokens[1] == Token(0, 15, false, None)
    && s.now == 10 && s.workers == map[0 := Idle, 1 := Idle]
  }

  lemma SessionIsOutlived()
    ensures Outlived(Run(EMPTY, OUTLIVED))
  {
    var start := OVERTAKEN[..4];
    SessionIsClaimed();
    var s := Run(EMPTY, start);
    RunThen(EMPTY, start, Tick(5));
    RunThen(EMPTY, start + [Tick(5)], Create(1, 1, 10));
    RunThen(EMPTY, start + [Tick(5)] + [Create(1, 1, 10)], Link(1));
    RunThen(EMPTY, start + [Tick(5)] + [Create(1, 1, 10)] + [Link(1)], Tick(5));
    var stored := Step(Step(s, Tick(5)), Create(1, 1, 10));
    assert stored.tokens == s.tokens[1 := Token(0, 15, false, None)] && PhaseOf(stored, 1) == Linking(0, 1);
  }

  /** An expired token that was exchanged is presented again: nothing is detected,
      and its live successor stays live, although nobody is about to create a token. */
  lemma ExpiredTokenEndsNothing()
    ensures var s := Run(EMPTY, OUTLIVED);
      && Outlived(s) && (forall v :: !Issues(s, v, 0)) && Live(Detected(s, 2, 0), 1) && !Ended(Detected(s, 2, 0), 0)
  {
    SessionIsOutlived();
    var s := Run(EMPTY, OUTLIVED);
    forall v ensures !Issues(s, v, 0) { assert PhaseOf(s, v) == Idle; }
    assert Live(Detected(s, 2, 0), 1);
    assert Run(Detected(s, 2, 0), []) == Detected(s, 2, 0);
  }

  lemma {:induction false} RunThen(s: State, events: seq<Event>, e: Event)
    ensures Run(s, events + [e]) == Step(Run(s, events), e)
    decreases |events|
  {
    if events == [] { assert [] + [e] == [e] && [e][1..] == []; }
    else {
      assert (events + [e])[1..] == events[1..] + [e];
      RunThen(Step(s, events[0]), events[1..], e);
    }
  }

  // ---- The service on its collection ---------------------------------------

  datatype AuthError = Expired | ReuseDetected | Unavailable

  lemma {:induction false} RunConcat(s: State, first: seq<Event>, rest: seq<Event>)
    ensures Run(s, first + rest) == Run(Run(s, first), rest)
    decreases |first|
  {
    if first == [] { assert first + rest == rest; }
    else {
      assert (first + rest)[1..] == first[1..] + rest;
      RunConcat(Step(s, first[0]), first[1..], rest);
    }
  }

  /** An event of another request, which creates another token. */
  predicate NotBy(e: Event, w: nat, id: nat) {
    match e
    case Logout(_) => true
    case Tick(_) => true
    case Create(v, other, _) => v != w && other != id
    case _ => e.worker != w
  }

  predicate Others(events: seq<Event>, w: nat, id: nat) { forall k :: 0 <= k < |events| ==> NotBy(events[k], w, id) }

  /** What other requests cannot do to one that waits. */
  predicate Undisturbed(s: State, t: State, w: nat, id: nat) {
    PhaseOf(t, w) == PhaseOf(s, w) && (id in t.tokens <==> id in s.tokens) && s.tokens.Keys <= t.tokens.Keys
  }

  lemma OtherStep(s: State, e: Event, w: nat, id: nat)
    requires NotBy(e, w, id)
    ensures Undisturbed(s, Step(s, e), w, id)
  {
  }

  lemma {:induction false} OthersRun(s: State, events: seq<Event>, w: nat, id: nat)
    requires Others(events, w, id)
    ensures Undisturbed(s, Run(s, events), w, id)
    decreases |events|
  {
    if events != [] {
      OtherStep(s, events[0], w, id);
      OthersRun(Step(s, events[0]), events[1..], w, id);
    }
  }

  /** The steps of an exchange from its claim on, and what others do in between. */
  function ExchangeTrace(s: State, w: nat, presented: nat, id: nat, ttl: nat, others: nat -> seq<Event>): seq<Event> {
    [Claim(w)] + others(1) +
    if Claimable(s.tokens, s.now, presented) then [Create(w, id, ttl)] + others(2) + [Link(w)] else [RevokeFamily(w)]
  }

  /** The steps of a refresh, and what others do in between. */
  function RefreshTrace(s: State, w: nat, presented: nat, adminActive: bool, id: nat, ttl: nat,
                        others: nat -> seq<Event>)
    : seq<Event>
  {
    var read := Step(s, Present(w, presented));
    match PhaseOf(read, w)
    case Found(_) =>
      [Present(w, presented)] + others(0) +
      if adminActive then ExchangeTrace(Run(read, others(0)), w, presented, id, ttl, others) else [AdminGone(w)]
    case Reusing(_) => [Present(w, presented)] + others(0) + [RevokeFamily(w)]
    case _ => [Present(w, presented)]
  }

  /** The collection and the clock, with what every request in progress remembers. */
  class AuthService {
    var tokens: Tokens
    var now: nat
    var workers: Workers
    var lines: Lines
    var parents: Parents
    var exchanged: seq<nat>

    function Model(): State
      reads this
    {
      State(tokens, now, workers, lines, parents, exchanged)
    }

    constructor ()
      ensures Model() == EMPTY
    {
      tokens, now, workers, lines, parents, exchanged := map[], 0, map[], map[], map[], [];
    }

    method Become(s: State)
      modifies this
      ensures Model() == s
    {
      tokens, now, workers, lines, parents, exchanged := s.tokens, s.now, s.workers, s.lines, s.parents, s.exchanged;
    }

    /** An `await`: other requests go on. */
    method Await(w: nat, id: nat, events: seq<Event>)
      requires Others(events, w, id)
      modifies this
      ensures Model() == Run(old(Model()), events) && Undisturbed(old(Model()), Model(), w, id)
    {
      OthersRun(Model(), events, w, id);
      Become(Run(Model(), events));
    }

    /** `findOne` on the token's hash. */
    method FindToken(w: nat, presented: nat) returns (found: Option<Token>)
      requires PhaseOf(Model(), w) == Idle
      modifies this`workers
      ensures Model() == Step(old(Model()), Present(w, presented))
      ensures found == if presented in tokens then Some(tokens[presented]) else None
    {
      found := if presented in tokens then Some(tokens[presented]) else None;
      if found.Some? && found.value.expiresAt > now {
        workers := workers[w := if found.value.revoked then Reusing(found.value.family) else Found(presented)];
      }
    }

    method ClaimOne(w: nat, id: nat) returns (claimed: bool)
      requires PhaseOf(Model(), w) == Found(id) && id in tokens
      modifies this`tokens, this`workers, this`exchanged
      ensures Model() == Step(old(Model()), Claim(w)) && claimed == Claimable(old(tokens), now, id)
      ensures PhaseOf(Model(), w) == if claimed then Issuing(tokens[id].family, Some(id))
              else Reusing(tokens[id].family)
    {
      claimed := Claimable(tokens, now, id);
      if claimed {
        tokens := tokens[id := tokens[id].(revoked := true)];
        exchanged := exchanged + [id];
      }
      workers := workers[w := if claimed then Issuing(tokens[id].family, Some(id)) else Reusing(tokens[id].family)];
    }

    method RevokeAll(w: nat, family: nat)
      requires PhaseOf(Model(), w) == Reusing(family)
      modifies this`tokens, this`workers
      ensures Model() == Step(old(Model()), RevokeFamily(w))
    {
      tokens := FamilyRevoked(tokens, family);
      workers := workers[w := Idle];
    }

    method IssuePair(w: nat, family: nat, claimed: nat, id: nat, ttl: nat)
      requires PhaseOf(Model(), w) == Issuing(family, Some(claimed)) && id !in tokens
      modifies this`tokens, this`workers, this`lines, this`parents
      ensures Model() == Step(old(Model()), Create(w, id, ttl)) && PhaseOf(Model(), w) == Linking(claimed, id)
    {
      tokens := tokens[id := Token(family, now + ttl, false, None)];
      lines := lines[family := (if family in lines then lines[family] else []) + [id]];
      parents := parents[id := claimed];
      workers := workers[w := Linking(claimed, id)];
    }

    method SetReplacedBy(w: nat, parent: nat, child: nat)
      requires PhaseOf(Model(), w) == Linking(parent, child)
      modifies this`tokens, this`workers
      ensures Model() == Step(old(Model()), Link(w))
    {
      if parent in tokens { tokens := tokens[parent := tokens[parent].(replacedBy := Some(child))]; }
      workers := workers[w := Idle];
    }

    method Leave(w: nat)
      requires PhaseOf(Model(), w).Found?
      modifies this`workers
      ensures Model() == Step(old(Model()), AdminGone(w))
    {
      workers := workers[w := Idle];
    }

    /** The successor is stored, then linked. */
    method Replace(w: nat, family: nat, presented: nat, id: nat, ttl: nat, others: seq<Event>)
        returns (ghost trace: seq<Event>)
      requires PhaseOf(Model(), w) == Issuing(family, Some(presented)) && id !in tokens && Others(others, w, id)
      modifies this
      ensures trace == [Create(w, id, ttl)] + others + [Link(w)]
      ensures Model() == Run(old(Model()), trace) && id in tokens
    {
      ghost var start := Model();
      IssuePair(w, family, presented, id, ttl);
      RunThen(start, [], Create(w, id, ttl));
      trace := [] + [Create(w, id, ttl)];
      assert trace == [Create(w, id, ttl)];
      Await(w, id, others);
      RunConcat(start, trace, others);
      trace := trace + others;
      SetReplacedBy(w, presented, id);
      RunThen(start, trace, Link(w));
      trace := trace + [Link(w)];
    }

    /** From the claim on; `others` happen at each `await`. */
    method Exchange(w: nat, presented: nat, id: nat, ttl: nat, others: nat -> seq<Event>)
        returns (r: Result<nat, AuthError>, ghost trace: seq<Event>)
      requires PhaseOf(Model(), w) == Found(presented) && presented in tokens && id !in tokens
      requires Others(others(1), w, id) && Others(others(2), w, id)
      modifies this
      ensures trace == ExchangeTrace(old(Model()), w, presented, id, ttl, others)
      ensures Model() == Run(old(Model()), trace)
      ensures r == if Claimable(old(tokens), old(now), presented) then Ok(id) else Err(ReuseDetected)
      ensures r == Ok(id) ==> id in tokens
    {
      ghost var start := Model();
      var family := tokens[presented].family;
      var claimed := ClaimOne(w, presented);
      RunThen(start, [], Claim(w));
      trace := [] + [Claim(w)];
      assert trace == [Claim(w)];
      Await(w, id, others(1));
      RunConcat(start, trace, others(1));
      trace := trace + others(1);
      if claimed {
        ghost var rest := Replace(w, family, presented, id, ttl, others(2));
        RunConcat(start, trace, rest);
        return Ok(id), trace + rest;
      }
      RevokeAll(w, family);
      RunThen(start, trace, RevokeFamily(w));
      return Err(ReuseDetected), trace + [RevokeFamily(w)];
    }

    /** `logout` of a token by its hash. */
    method Logout(presented: nat)
      modifies this`tokens
      ensures Model() == Step(old(Model()), Event.Logout(presented))
    {
      if presented in tokens { tokens := tokens[presented := tokens[presented].(revoked := true)]; }
    }

    /** `refresh` with anything that other requests do at each `await`: a run of
        the model, which succeeds exactly when its claim finds the token live. */
    method Refresh(w: nat, presented: nat, adminActive: bool, id: nat, ttl: nat, others: nat -> seq<Event>)
        returns (r: Result<nat, AuthError>, ghost trace: seq<Event>)
      requires PhaseOf(Model(), w) == Idle && id !in tokens && forall k :: Others(others(k), w, id)
      modifies this
      ensures trace == RefreshTrace(old(Model()), w, presented, adminActive, id, ttl, others)
      ensures Model() == Run(old(Model()), trace)
      ensures var read := Step(old(Model()), Present(w, presented)); var claiming := Run(read, others(0));
        && (r == Ok(id) <==>
              PhaseOf(read, w).Found? && adminActive && Claimable(claiming.tokens, claiming.now, presented))
        && (r == Err(ReuseDetected) <==>
              || PhaseOf(read, w).Reusing?
              || (PhaseOf(read, w).Found? && adminActive && !Claimable(claiming.tokens, claiming.now, presented)))
        && (r == Ok(id) ==> id in tokens)
    {
      ghost var start := Model();
      var found := FindToken(w, presented);
      RunThen(start, [], Present(w, presented));
      trace := [] + [Present(w, presented)];
      ghost var read := Model();
      assert trace == [Present(w, presented)];
      if found.None? || found.value.expiresAt <= now { return Err(Expired), trace; }
      var stored := found.value;
      Await(w, id, others(0));
      RunConcat(start, trace, others(0));
      trace := trace + others(0);
      if stored.revoked {
        RevokeAll(w, stored.family);
        RunThen(start, trace, RevokeFamily(w));
        return Err(ReuseDetected), trace + [RevokeFamily(w)];
      }
      if !adminActive {
        Leave(w);
        RunThen(start, trace, AdminGone(w));
        return Err(Unavailable), trace + [AdminGone(w)];
      }
      ghost var rest;
      r, rest := Exchange(w, presented, id, ttl, others);
      RunConcat(start, trace, rest);
      trace := trace + rest;
    }
  }
}
