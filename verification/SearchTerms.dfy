/**
 Inventory search terms: one term a line, read from pasted credential lists by
 the admin page and again by the server.
 */
module SearchTerms {
  import opened Wrappers
  import opened Text
  import opened InventoryLines

  const MAX_TERMS := 100
  const MAX_TERM_LENGTH := 120
  const MAX_QUERY_LENGTH := MAX_TERMS * MAX_TERM_LENGTH + MAX_TERMS - 1

  /** Lines are counted from one. */
  datatype SearchError = NoLogin(line: nat) | TooLong(line: nat) | TooMany

  // ---- Lines ---------------------------------------------------------------

  function LineEnd(s: string): (n: nat)
    ensures n <= |s| && '\n' !in s[..n] && (n < |s| ==> s[n] == '\n')
  {
    if s == "" || s[0] == '\n' then 0 else 1 + LineEnd(s[1..])
  }

  function WithoutReturn(s: string): string { if s != "" && s[|s| - 1] == '\r' then s[..|s| - 1] else s }

  /** `split` at every line feed and the carriage return right before it. */
  function Lines(s: string): (lines: seq<string>)
    ensures lines != []
    decreases |s|
  {
    var n := LineEnd(s);
    if n == |s| then [s] else [WithoutReturn(s[..n])] + Lines(s[n + 1..])
  }

  function Join(terms: seq<string>): string {
    if terms == [] then ""
    else if |terms| == 1 then terms[0]
    else terms[0] + "\n" + Join(terms[1..])
  }

  // ---- Reading one line ----------------------------------------------------

  /** What stands before the dashes of a trimmed line. */
  function Login(line: string): string {
    match IndexOf(line, "----", 0)
    case None => line
    case Some(p) => if p <= |line| then Trim(line[..p]) else line
  }

  datatype Reading = Blank | Missing | Oversized | Term(text: string)

  function Read(raw: string): Reading {
    var line := Trim(raw);
    if line == "" then Blank
    else
      var term := Login(line);
      if term == "" then Missing else if |term| > MAX_TERM_LENGTH then Oversized else Term(term)
  }

  /** A term that reads as itself. */
  predicate NormalTerm(t: string) {
    t != "" && |t| <= MAX_TERM_LENGTH && Trimmed(t) && '\n' !in t && IndexOf(t, "----", 0) == None
  }

  // ---- Normalising ---------------------------------------------------------

  /** `lower` is the locale's lower-casing. */
  predicate Known(terms: seq<string>, t: string, lower: string -> string) {
    exists i :: 0 <= i < |terms| && lower(terms[i]) == lower(t)
  }

  /** The terms no earlier term equals but for case. */
  function FirstSeen(ts: seq<string>, lower: string -> string): seq<string> {
    if ts == [] then []
    else
      var n := |ts| - 1;
      FirstSeen(ts[..n], lower) + if Known(ts[..n], ts[n], lower) then [] else [ts[n]]
  }

  predicate Readable(lines: seq<string>) {
    forall i :: 0 <= i < |lines| ==> !Read(lines[i]).Missing? && !Read(lines[i]).Oversized?
  }

  function ReadAll(lines: seq<string>): seq<string> {
    if lines == [] then []
    else (match Read(lines[0]) case Term(t) => [t] case _ => []) + ReadAll(lines[1..])
  }

  /** The rest of the loop, with the terms kept so far. */
  function Collect(lines: seq<string>, index: nat, terms: seq<string>, lower: string -> string)
    : Result<seq<string>, SearchError>
  {
    if lines == [] then Ok(terms)
    else
      match Read(lines[0])
      case Blank => Collect(lines[1..], index + 1, terms, lower)
      case Missing => Err(NoLogin(index + 1))
      case Oversized => Err(TooLong(index + 1))
      case Term(t) =>
        if Known(terms, t, lower) then Collect(lines[1..], index + 1, terms, lower)
        else if |terms| >= MAX_TERMS then Err(TooMany)
        else Collect(lines[1..], index + 1, terms + [t], lower)
  }

  function Normalize(value: string, lower: string -> string): Result<seq<string>, SearchError> {
    Collect(Lines(value), 0, [], lower)
  }

  /** What the list view can be asked for. */
  predicate NormalList(terms: seq<string>, lower: string -> string) {
    && |terms| <= MAX_TERMS
    && (forall i :: 0 <= i < |terms| ==> NormalTerm(terms[i]))
    && (forall i, j :: 0 <= i < j < |terms| ==> lower(terms[i]) != lower(terms[j]))
  }

  // ---- First-seen order ----------------------------------------------------

  lemma FirstSeenAppend(ts: seq<string>, t: string, lower: string -> string)
    ensures FirstSeen(ts + [t], lower) == FirstSeen(ts, lower) + if Known(ts, t, lower) then [] else [t]
  {
  }

  lemma KnownAppend(ts: seq<string>, u: string, t: string, lower: string -> string)
    ensures Known(ts + [u], t, lower) <==> Known(ts, t, lower) || lower(u) == lower(t)
  {
    if Known(ts, t, lower) {
      var i :| 0 <= i < |ts| && lower(ts[i]) == lower(t);
      assert lower((ts + [u])[i]) == lower(t);
    }
    if lower(u) == lower(t) { assert lower((ts + [u])[|ts|]) == lower(t); }
  }

  /** Keeping the first of every key loses no key. */
  lemma {:induction false} SeenIsKnown(ts: seq<string>, t: string, lower: string -> string)
    ensures Known(FirstSeen(ts, lower), t, lower) <==> Known(ts, t, lower)
  {
    if ts != [] {
      var n := |ts| - 1;
      assert ts == ts[..n] + [ts[n]];
      SeenIsKnown(ts[..n], t, lower);
      SeenIsKnown(ts[..n], ts[n], lower);
      KnownAppend(ts[..n], ts[n], t, lower);
      KnownAppend(FirstSeen(ts[..n], lower), ts[n], t, lower);
      assert FirstSeen(ts[..n], lower) + [] == FirstSeen(ts[..n], lower);
    }
  }

  lemma {:induction false} SeenIsDistinct(ts: seq<string>, lower: string -> string)
    ensures var kept := FirstSeen(ts, lower); forall i, j :: 0 <= i < j < |kept| ==> lower(kept[i]) != lower(kept[j])
  {
    if ts != [] {
      var n := |ts| - 1;
      SeenIsDistinct(ts[..n], lower);
      SeenIsKnown(ts[..n], ts[n], lower);
    }
  }

  lemma {:induction false} SeenComesFrom(ts: seq<string>, lower: string -> string)
    ensures forall t :: t in FirstSeen(ts, lower) ==> t in ts
  {
    if ts != [] { SeenComesFrom(ts[..|ts| - 1], lower); }
  }

  lemma {:induction false} DistinctIsSeen(ts: seq<string>, lower: string -> string)
    requires forall i, j :: 0 <= i < j < |ts| ==> lower(ts[i]) != lower(ts[j])
    ensures FirstSeen(ts, lower) == ts
  {
    if ts != [] {
      var n := |ts| - 1;
      DistinctIsSeen(ts[..n], lower);
      assert ts == ts[..n] + [ts[n]];
    }
  }

  lemma {:induction false} SeenGrows(ts: seq<string>, more: seq<string>, lower: string -> string)
    ensures |FirstSeen(ts, lower)| <= |FirstSeen(ts + more, lower)|
    decreases |more|
  {
    if more == [] { assert ts + more == ts; }
    else {
      var n := |more| - 1;
      SeenGrows(ts, more[..n], lower);
      assert ts + more == (ts + more[..n]) + [more[n]];
      FirstSeenAppend(ts + more[..n], more[n], lower);
    }
  }

  // ---- What the loop computes ----------------------------------------------

  ghost predicate Means(r: Result<seq<string>, SearchError>, good: bool, all: seq<string>, lower: string -> string) {
    && (r.Ok? <==> good && |FirstSeen(all, lower)| <= MAX_TERMS)
    && (r.Ok? ==> r.value == FirstSeen(all, lower))
  }

  lemma ReadableRest(lines: seq<string>)
    requires lines != []
    ensures Readable(lines) <==> !Read(lines[0]).Missing? && !Read(lines[0]).Oversized? && Readable(lines[1..])
  {
  }

  /** What one more term does to the terms kept. */
  lemma OneMore(before: seq<string>, t: string, rest: seq<string>, lower: string -> string)
    ensures before + ([t] + rest) == (before + [t]) + rest
    ensures var terms := FirstSeen(before, lower);
      FirstSeen(before + [t], lower) == if Known(terms, t, lower) then terms else terms + [t]
    ensures |FirstSeen(before + [t], lower)| <= |FirstSeen((before + [t]) + rest, lower)|
  {
    SeenIsKnown(before, t, lower);
    FirstSeenAppend(before, t, lower);
    SeenGrows(before + [t], rest, lower);
  }

  lemma CollectTerm(lines: seq<string>, index: nat, terms: seq<string>, t: string, lower: string -> string)
    requires lines != [] && Read(lines[0]) == Term(t)
    ensures Collect(lines, index, terms, lower) ==
            if Known(terms, t, lower) then Collect(lines[1..], index + 1, terms, lower)
            else if |terms| >= MAX_TERMS then Err(TooMany)
            else Collect(lines[1..], index + 1, terms + [t], lower)
    ensures ReadAll(lines) == [t] + ReadAll(lines[1..])
  {
  }

  lemma CollectOther(lines: seq<string>, index: nat, terms: seq<string>, lower: string -> string)
    requires lines != [] && !Read(lines[0]).Term?
    ensures if Read(lines[0]).Blank?
            then Collect(lines, index, terms, lower) == Collect(lines[1..], index + 1, terms, lower)
            else Collect(lines, index, terms, lower).Err?
    ensures ReadAll(lines) == ReadAll(lines[1..])
  {
  }

  lemma {:induction false} CollectMeans(lines: seq<string>, index: nat, before: seq<string>, lower: string -> string)
    requires |FirstSeen(before, lower)| <= MAX_TERMS
    ensures Means(Collect(lines, index, FirstSeen(before, lower), lower), Readable(lines),
                  before + ReadAll(lines), lower)
    decreases |lines|
  {
    var terms := FirstSeen(before, lower);
    if lines == [] { assert before + [] == before; }
    else {
      ReadableRest(lines);
      if Read(lines[0]).Term? {
        var t := Read(lines[0]).text;
        OneMore(before, t, ReadAll(lines[1..]), lower);
        CollectTerm(lines, index, terms, t, lower);
        if Known(terms, t, lower) || |terms| < MAX_TERMS { CollectMeans(lines[1..], index + 1, before + [t], lower); }
      } else {
        CollectOther(lines, index, terms, lower);
        if Read(lines[0]).Blank? { CollectMeans(lines[1..], index + 1, before, lower); }
      }
    }
  }

  /** Main result: a text is accepted when every line that is not blank has a
      login of fitting length and the logins that differ in more than case are
      few enough; the result is those logins, each where it was first seen. */
  lemma NormalizeMeans(value: string, lower: string -> string)
    ensures var all := ReadAll(Lines(value)); var r := Normalize(value, lower);
      && (r.Ok? <==> Readable(Lines(value)) && |FirstSeen(all, lower)| <= MAX_TERMS)
      && (r.Ok? ==> r.value == FirstSeen(all, lower))
  {
    CollectMeans(Lines(value), 0, [], lower);
    assert [] + ReadAll(Lines(value)) == ReadAll(Lines(value));
  }

  // ---- The shape of a result -----------------------------------------------

  lemma {:induction false} LinesHaveNoFeed(s: string)
    ensures forall i :: 0 <= i < |Lines(s)| ==> '\n' !in Lines(s)[i]
    decreases |s|
  {
    var n := LineEnd(s);
    if n < |s| { LinesHaveNoFeed(s[n + 1..]); }
    else { assert s[..n] == s; }
  }

  lemma AtInside(s: string, t: string, part: string, from: nat, p: nat)
    requires from + |t| <= |s| && s[from..from + |t|] == t && At(t, part, p)
    ensures At(s, part, from + p)
  {
    forall k | 0 <= k < |part| ensures s[from + p + k] == part[k] {
      assert t[p..p + |part|][k] == t[p + k] == s[from..from + |t|][p + k];
    }
  }

  lemma DashesOnlyInside(s: string, t: string, from: nat)
    requires from + |t| <= |s| && s[from..from + |t|] == t && IndexOf(t, "----", 0).Some?
    ensures IndexOf(s, "----", 0).Some? && IndexOf(s, "----", 0).value + 4 <= from + |t|
  {
    IndexFound(t, "----", 0);
    var p := IndexOf(t, "----", 0).value;
    AtInside(s, t, "----", from, p);
    IndexFound(s, "----", 0);
  }

  /** Where the trimmed text stands. */
  lemma TrimIsSlice(s: string) returns (from: nat)
    ensures from + |Trim(s)| <= |s| && s[from..from + |Trim(s)|] == Trim(s)
  {
    from := FirstInk(s, 0);
  }

  lemma LoginHasNoDashes(line: string)
    ensures IndexOf(Login(line), "----", 0) == None
  {
    IndexFound(line, "----", 0);
    if IndexOf(line, "----", 0).Some? {
      var p := IndexOf(line, "----", 0).value;
      var from := TrimIsSlice(line[..p]);
      var t := Login(line);
      assert line[from..from + |t|] == line[..p][from..from + |t|];
      if IndexOf(t, "----", 0).Some? { DashesOnlyInside(line, t, from); }
    }
  }

  lemma ReadIsNormal(raw: string)
    requires '\n' !in raw && Read(raw).Term?
    ensures NormalTerm(Read(raw).text)
  {
    var line := Trim(raw);
    LoginHasNoDashes(line);
    IndexFound(line, "----", 0);
  }

  lemma {:induction false} AllNormal(lines: seq<string>)
    requires forall i :: 0 <= i < |lines| ==> '\n' !in lines[i]
    ensures forall t :: t in ReadAll(lines) ==> NormalTerm(t)
  {
    if lines != [] {
      AllNormal(lines[1..]);
      if Read(lines[0]).Term? { ReadIsNormal(lines[0]); }
    }
  }

  /** Every result is one the list view can be asked for. */
  lemma ResultIsNormal(value: string, lower: string -> string)
    requires Normalize(value, lower).Ok?
    ensures NormalList(Normalize(value, lower).value, lower)
  {
    var all := ReadAll(Lines(value));
    NormalizeMeans(value, lower);
    LinesHaveNoFeed(value);
    AllNormal(Lines(value));
    SeenIsDistinct(all, lower);
    SeenComesFrom(all, lower);
    var kept := FirstSeen(all, lower);
    forall i | 0 <= i < |kept| ensures NormalTerm(kept[i]) { assert kept[i] in kept; }
  }

  // ---- The hop from page to server -----------------------------------------

  lemma {:induction false} LineEndIs(s: string, n: nat)
    requires n <= |s| && '\n' !in s[..n] && (n < |s| ==> s[n] == '\n')
    ensures LineEnd(s) == n
  {
  }

  lemma LinesCons(line: string, rest: string)
    requires '\n' !in line && WithoutReturn(line) == line
    ensures Lines(line + "\n" + rest) == [line] + Lines(rest)
  {
    var s := line + "\n" + rest;
    assert s[..|line|] == line && s[|line| + 1..] == rest;
    LineEndIs(s, |line|);
  }

  lemma JoinCons(terms: seq<string>)
    requires |terms| > 1
    ensures Join(terms) == terms[0] + "\n" + Join(terms[1..]) && [terms[0]] + terms[1..] == terms
  {
  }

  lemma NormalLine(t: string)
    requires NormalTerm(t)
    ensures WithoutReturn(t) == t && '\n' !in t && Lines(t) == [t]
  {
  }

  lemma {:induction false} LinesOfJoin(terms: seq<string>)
    requires terms != [] && forall i :: 0 <= i < |terms| ==> NormalTerm(terms[i])
    ensures Lines(Join(terms)) == terms
  {
    assert NormalTerm(terms[0]);
    if |terms| == 1 {
      NormalLine(terms[0]);
      assert terms == [terms[0]];
    } else {
      LinesOfJoin(terms[1..]);
      NormalLine(terms[0]);
      LinesCons(terms[0], Join(terms[1..]));
      JoinCons(terms);
    }
  }

  lemma {:induction false} NormalReadsAsIs(terms: seq<string>)
    requires forall i :: 0 <= i < |terms| ==> NormalTerm(terms[i])
    ensures ReadAll(terms) == terms && Readable(terms)
  {
    if terms != [] {
      NormalReadsAsIs(terms[1..]);
      assert Read(terms[0]) == Term(terms[0]);
      ReadableRest(terms);
      assert terms == [terms[0]] + terms[1..];
    }
  }

  lemma {:induction false} JoinIsTrimmed(terms: seq<string>)
    requires terms != [] && forall i :: 0 <= i < |terms| ==> NormalTerm(terms[i])
    ensures var s := Join(terms); s != "" && !IsSpace(s[0]) && !IsSpace(s[|s| - 1])
  {
    assert NormalTerm(terms[0]);
    if |terms| > 1 { JoinIsTrimmed(terms[1..]); }
  }

  lemma {:induction false} JoinLength(terms: seq<string>)
    requires forall i :: 0 <= i < |terms| ==> NormalTerm(terms[i])
    ensures terms != [] ==> 2 * |terms| - 1 <= |Join(terms)| <= |terms| * (MAX_TERM_LENGTH + 1) - 1
  {
    if terms != [] {
      assert NormalTerm(terms[0]);
      JoinLength(terms[1..]);
    }
  }

  /** Main result: joined with line feeds and trimmed by the server, a list reads
      back as itself if and only if it is a normal list. */
  lemma HopIsExact(terms: seq<string>, lower: string -> string)
    ensures Normalize(Trim(Join(terms)), lower) == Ok(terms) <==> NormalList(terms, lower)
  {
    if Normalize(Trim(Join(terms)), lower) == Ok(terms) { ResultIsNormal(Trim(Join(terms)), lower); }
    if NormalList(terms, lower) {
      NormalizeMeans(Join(terms), lower);
      DistinctIsSeen(terms, lower);
      if terms != [] {
        JoinIsTrimmed(terms);
        LinesOfJoin(terms);
        NormalReadsAsIs(terms);
      } else { assert Trim("") == "" && Lines("") == [""]; }
    }
  }

  /** Main result: what the page sends is read by the server as the page meant
      it, and fits the length the server accepts. */
  lemma HopKeepsTerms(value: string, lower: string -> string)
    requires Normalize(value, lower).Ok?
    ensures var terms := Normalize(value, lower).value; var query := Join(terms);
      && Normalize(Trim(query), lower) == Ok(terms)
      && |query| <= MAX_QUERY_LENGTH
      && (query == "" <==> terms == [])
  {
    var terms := Normalize(value, lower).value;
    ResultIsNormal(value, lower);
    HopIsExact(terms, lower);
    JoinLength(terms);
  }

  // ---- The loop ------------------------------------------------------------

  ghost predicate SeenKeys(seen: set<string>, terms: seq<string>, lower: string -> string) {
    forall t :: lower(t) in seen <==> Known(terms, t, lower)
  }

  lemma SeeOne(seen: set<string>, terms: seq<string>, term: string, lower: string -> string)
    requires SeenKeys(seen, terms, lower)
    ensures SeenKeys(seen + {lower(term)}, terms + [term], lower)
  {
    forall t ensures lower(t) in seen + {lower(term)} <==> Known(terms + [term], t, lower) {
      KnownAppend(terms, term, t, lower);
    }
  }

  /** The loop at one line. */
  lemma CollectAt(lines: seq<string>, index: nat, terms: seq<string>, lower: string -> string)
    requires index < |lines|
    ensures Collect(lines[index..], index, terms, lower) ==
            match Read(lines[index])
            case Blank => Collect(lines[index + 1..], index + 1, terms, lower)
            case Missing => Err(NoLogin(index + 1))
            case Oversized => Err(TooLong(index + 1))
            case Term(t) => if Known(terms, t, lower) then Collect(lines[index + 1..], index + 1, terms, lower)
                            else if |terms| >= MAX_TERMS then Err(TooMany)
                            else Collect(lines[index + 1..], index + 1, terms + [t], lower)
  {
  }

  method NormalizeInventorySearchTerms(value: string, lower: string -> string)
    returns (r: Result<seq<string>, SearchError>)
    ensures r == Normalize(value, lower)
  {
    var terms: seq<string>, seen: set<string> := [], {};
    var lines := Lines(value);
    assert lines[0..] == lines;
    for index := 0 to |lines|
      invariant SeenKeys(seen, terms, lower)
      invariant Normalize(value, lower) == Collect(lines[index..], index, terms, lower)
    {
      CollectAt(lines, index, terms, lower);
      var line := Trim(lines[index]);
      if line == "" { continue; }
      var term := Login(line);
      if term == "" { return Err(NoLogin(index + 1)); }
      if |term| > MAX_TERM_LENGTH { return Err(TooLong(index + 1)); }
      var key := lower(term);
      if key in seen { continue; }
      if |terms| >= MAX_TERMS { return Err(TooMany); }
      SeeOne(seen, terms, term, lower);
      seen := seen + {key};
      terms := terms + [term];
    }
    r := Ok(terms);
  }
}
