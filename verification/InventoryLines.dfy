/**
 Inventory rows as text: splitting a line by a pattern's literals and rendering
 a payload with them.
 */
module InventoryLines {
  import opened Wrappers

  /** Literal text before, between and after the values. */
  datatype Definition = Definition(keys: seq<string>, literals: seq<string>, custom: bool)

  type Payload = map<string, string>

  datatype LineError = MissingPrefix | MissingSuffix | MissingSeparator | NoMatch

  function Literal(def: Definition, i: nat): string { if i < |def.literals| then def.literals[i] else "" }

  /** A missing value prints as nothing. */
  function Get(payload: Payload, key: string): string { if key in payload then payload[key] else "" }

  predicate At(s: string, part: string, p: nat) { p + |part| <= |s| && s[p..p + |part|] == part }

  predicate EndsWith(s: string, part: string) { |part| <= |s| && s[|s| - |part|..] == part }

  /** `indexOf` from a position inside the string. */
  function IndexOf(s: string, part: string, from: nat): Option<nat>
    decreases |s| - from
  {
    if from > |s| then None else if At(s, part, from) then Some(from) else IndexOf(s, part, from + 1)
  }

  // ---- Parsing a line ------------------------------------------------------

  /** The values from key `index` on, reading from `cursor`. */
  function ParseFrom(line: string, def: Definition, cursor: nat, index: nat): Result<seq<string>, LineError>
    requires cursor <= |line|
    decreases |def.keys| - index
  {
    if index >= |def.keys| then Ok([]) else
    var next := Literal(def, index + 1);
    if index == |def.keys| - 1 then
      if next != "" && !EndsWith(line, next) then Err(MissingSuffix)
      else if |line| - |next| < cursor then Err(NoMatch)
      else Ok([line[cursor..|line| - |next|]])
    else
      match IndexOf(line, next, cursor)
      case None => Err(MissingSeparator)
      case Some(p) =>
        IndexFound(line, next, cursor);
        match ParseFrom(line, def, p + |next|, index + 1)
        case Err(e) => Err(e)
        case Ok(values) => Ok([line[cursor..p]] + values)
  }

  lemma IndexFound(s: string, part: string, from: nat)
    ensures IndexOf(s, part, from).Some? ==>
      from <= IndexOf(s, part, from).value && At(s, part, IndexOf(s, part, from).value)
    ensures forall p :: from <= p && At(s, part, p) ==>
            IndexOf(s, part, from).Some? && IndexOf(s, part, from).value <= p
    decreases |s| - from
  {
  }

  /** `Object.fromEntries`: a repeated key keeps its last value. */
  function FromEntries(keys: seq<string>, values: seq<string>): Payload {
    if keys == [] then map[]
    else
      var n := |keys| - 1;
      FromEntries(keys[..n], values)[keys[n] := if n < |values| then values[n] else ""]
  }

  function ParseLine(line: string, def: Definition): Result<Payload, LineError> {
    var prefix := Literal(def, 0);
    if !At(line, prefix, 0) then Err(MissingPrefix)
    else
      match ParseFrom(line, def, |prefix|, 0)
      case Err(e) => Err(e)
      case Ok(values) => Ok(FromEntries(def.keys, values))
  }

  // ---- Rendering a payload -------------------------------------------------

  function FormatFrom(payload: Payload, def: Definition, index: nat): string
    decreases |def.keys| - index
  {
    if index >= |def.keys| then ""
    else Get(payload, def.keys[index]) + Literal(def, index + 1) + FormatFrom(payload, def, index + 1)
  }

  function Format(payload: Payload, def: Definition): string { Literal(def, 0) + FormatFrom(payload, def, 0) }

  /** The values alone, with the literals after them. */
  function Render(values: seq<string>, def: Definition, index: nat): string {
    if values == [] then "" else values[0] + Literal(def, index + 1) + Render(values[1..], def, index + 1)
  }

  predicate Distinct(keys: seq<string>) { forall i, j :: 0 <= i < j < |keys| ==> keys[i] != keys[j] }

  lemma {:induction false} FromEntriesAt(keys: seq<string>, values: seq<string>, i: nat)
    requires Distinct(keys) && i < |keys| <= |values|
    ensures keys[i] in FromEntries(keys, values) && FromEntries(keys, values)[keys[i]] == values[i]
  {
    var n := |keys| - 1;
    if i < n {
      assert keys[..n][i] == keys[i];
      FromEntriesAt(keys[..n], values, i);
    }
  }

  lemma {:induction false} FromEntriesKeys(keys: seq<string>, values: seq<string>)
    ensures forall k :: k in FromEntries(keys, values) <==> k in keys
  {
    if keys != [] {
      var n := |keys| - 1;
      FromEntriesKeys(keys[..n], values);
      assert keys == keys[..n] + [keys[n]];
    }
  }

  lemma {:induction false} FormatIsRender(payload: Payload, def: Definition, values: seq<string>, index: nat)
    requires |values| == |def.keys| - index && index <= |def.keys|
    requires forall i :: index <= i < |def.keys| ==> Get(payload, def.keys[i]) == values[i - index]
    ensures FormatFrom(payload, def, index) == Render(values, def, index)
    decreases |values|
  {
    if values != [] { FormatIsRender(payload, def, values[1..], index + 1); }
  }

  lemma RenderCons(value: string, rest: seq<string>, def: Definition, index: nat)
    ensures Render([value] + rest, def, index) == value + Literal(def, index + 1) + Render(rest, def, index + 1)
  {
  }

  lemma SplitAt(line: string, cursor: nat, p: nat, next: string)
    requires cursor <= p && At(line, next, p)
    ensures line[cursor..] == line[cursor..p] + next + line[p + |next|..]
  {
  }

  lemma ParsedLast(line: string, def: Definition, cursor: nat, index: nat)
    requires cursor <= |line| && index == |def.keys| - 1 && ParseFrom(line, def, cursor, index).Ok?
    ensures var values := ParseFrom(line, def, cursor, index).value;
      |values| == 1 && line[cursor..] == values[0] + Literal(def, index + 1) && values == [values[0]] + []
  {
  }

  lemma {:induction false} ParsedIsRendered(line: string, def: Definition, cursor: nat, index: nat)
    requires cursor <= |line| && index < |def.keys| && ParseFrom(line, def, cursor, index).Ok?
    ensures var values := ParseFrom(line, def, cursor, index).value;
      |values| == |def.keys| - index && line[cursor..] == Render(values, def, index)
    decreases |def.keys| - index
  {
    var next := Literal(def, index + 1);
    if index == |def.keys| - 1 {
      ParsedLast(line, def, cursor, index);
      var value := ParseFrom(line, def, cursor, index).value[0];
      RenderCons(value, [], def, index);
      assert value + next + "" == value + next;
    } else {
      var p := IndexOf(line, next, cursor).value;
      ParseStep(line, def, cursor, index, p);
      ParsedIsRendered(line, def, p + |next|, index + 1);
      RenderCons(line[cursor..p], ParseFrom(line, def, p + |next|, index + 1).value, def, index);
      IndexFound(line, next, cursor);
      SplitAt(line, cursor, p, next);
    }
  }

  /** Main result: a line that parses is printed back exactly. */
  lemma FormatAfterParse(line: string, def: Definition)
    requires def.keys != [] && Distinct(def.keys) && ParseLine(line, def).Ok?
    ensures Format(ParseLine(line, def).value, def) == line
  {
    var cursor := |Literal(def, 0)|;
    ParsedIsRendered(line, def, cursor, 0);
    var values := ParseFrom(line, def, cursor, 0).value;
    var payload := ParseLine(line, def).value;
    forall i | 0 <= i < |def.keys| ensures Get(payload, def.keys[i]) == values[i] {
      FromEntriesAt(def.keys, values, i);
    }
    FormatIsRender(payload, def, values, 0);
    assert line == line[..cursor] + line[cursor..];
  }

  // ---- Parsing a rendered payload ------------------------------------------

  /** The literal after a value is first found where the value ends. */
  predicate ValueEndsAtLiteral(value: string, literal: string) {
    IndexOf(value + literal, literal, 0) == Some(|value|)
  }

  lemma LiteralIsFound(value: string, literal: string)
    ensures IndexOf(value + literal, literal, 0).Some? && IndexOf(value + literal, literal, 0).value <= |value|
  {
    assert At(value + literal, literal, |value|);
    IndexFound(value + literal, literal, 0);
  }

  lemma AtInContext(before: string, middle: string, tail: string, part: string, p: nat)
    requires p + |part| <= |middle|
    ensures At(before + middle + tail, part, |before| + p) <==> At(middle, part, p)
  {
  }

  /** Searching behind a prefix and before a tail finds the same place. */
  lemma SearchInContext(before: string, value: string, literal: string, tail: string)
    ensures IndexOf(value + literal, literal, 0).Some?
    ensures IndexOf(before + (value + literal) + tail, literal, |before|) ==
            Some(|before| + IndexOf(value + literal, literal, 0).value)
  {
    var t := value + literal;
    var s := before + t + tail;
    LiteralIsFound(value, literal);
    IndexFound(t, literal, 0);
    IndexFound(s, literal, |before|);
    var p := IndexOf(t, literal, 0).value;
    AtInContext(before, t, tail, literal, p);
    var q := IndexOf(s, literal, |before|).value;
    AtInContext(before, t, tail, literal, q - |before|);
  }

  ghost predicate Separable(def: Definition, values: seq<string>, index: nat) {
    forall i :: 0 <= i < |values| - 1 ==> ValueEndsAtLiteral(values[i], Literal(def, index + 1 + i))
  }

  lemma ShiftCondition(def: Definition, values: seq<string>, index: nat)
    requires |values| >= 2 && ValueEndsAtLiteral(values[0], Literal(def, index + 1))
    ensures Separable(def, values, index) <==> Separable(def, values[1..], index + 1)
  {
  }

  lemma ParseOfLast(before: string, def: Definition, value: string)
    requires def.keys != []
    ensures var index := |def.keys| - 1;
      ParseFrom(before + value + Literal(def, index + 1), def, |before|, index) == Ok([value])
  {
  }

  lemma SliceInside(before: string, value: string, next: string, rest: string, q: nat)
    requires q <= |value|
    ensures (before + (value + next) + rest)[|before|..|before| + q] == value[..q]
  {
    var line := before + (value + next) + rest;
    forall k | 0 <= k < q ensures line[|before|..|before| + q][k] == value[..q][k] {
      assert line[|before| + k] == (value + next)[k];
    }
  }

  /** Where the next literal is found in a rendered line. */
  lemma NextFound(before: string, value: string, next: string, rest: string) returns (q: nat)
    ensures q <= |value| && (q == |value| <==> ValueEndsAtLiteral(value, next))
    ensures IndexOf(before + (value + next) + rest, next, |before|) == Some(|before| + q)
    ensures (before + (value + next) + rest)[|before|..|before| + q] == value[..q]
  {
    SearchInContext(before, value, next, rest);
    LiteralIsFound(value, next);
    q := IndexOf(value + next, next, 0).value;
    SliceInside(before, value, next, rest, q);
  }

  /** Values already read, put before the rest of a parse. */
  function Behind(values: seq<string>, rest: Result<seq<string>, LineError>): Result<seq<string>, LineError> {
    match rest
    case Err(e) => Err(e)
    case Ok(more) => Ok(values + more)
  }

  lemma ParseStep(line: string, def: Definition, cursor: nat, index: nat, p: nat)
    requires cursor <= |line| && index < |def.keys| - 1 && IndexOf(line, Literal(def, index + 1), cursor) == Some(p)
    ensures cursor <= p && p + |Literal(def, index + 1)| <= |line|
    ensures ParseFrom(line, def, cursor, index) ==
            Behind([line[cursor..p]], ParseFrom(line, def, p + |Literal(def, index + 1)|, index + 1))
  {
    IndexFound(line, Literal(def, index + 1), cursor);
  }

  lemma EndsRight(before: string, def: Definition, values: seq<string>, index: nat, rest: string)
    requires |values| >= 2 && index < |def.keys| - 1
    requires ValueEndsAtLiteral(values[0], Literal(def, index + 1))
    ensures var head := before + values[0] + Literal(def, index + 1);
      ParseFrom(head + rest, def, |before|, index) == Ok(values) <==>
        ParseFrom(head + rest, def, |head|, index + 1) == Ok(values[1..])
  {
    var value, next := values[0], Literal(def, index + 1);
    var head := before + value + next;
    var line := head + rest;
    assert line == before + (value + next) + rest;
    var q := NextFound(before, value, next, rest);
    ParseStep(line, def, |before|, index, |before| + q);
    assert value[..q] == value;
    HeadMatters(value, values, ParseFrom(line, def, |head|, index + 1));
  }

  lemma EndsEarly(before: string, def: Definition, values: seq<string>, index: nat, rest: string)
    requires |values| >= 2 && index < |def.keys| - 1
    requires !ValueEndsAtLiteral(values[0], Literal(def, index + 1))
    ensures ParseFrom(before + values[0] + Literal(def, index + 1) + rest, def, |before|, index) != Ok(values)
  {
    var value, next := values[0], Literal(def, index + 1);
    var line := before + value + next + rest;
    assert line == before + (value + next) + rest;
    var q := NextFound(before, value, next, rest);
    ParseStep(line, def, |before|, index, |before| + q);
    HeadDiffers(value[..q], values, ParseFrom(line, def, |before| + q + |next|, index + 1));
  }

  lemma LastCase(before: string, def: Definition, values: seq<string>, index: nat)
    requires |values| == 1 && index + 1 == |def.keys|
    ensures ParseFrom(before + Render(values, def, index), def, |before|, index) == Ok(values)
  {
    assert values == [values[0]] && values[1..] == [];
    assert before + Render(values, def, index) == before + values[0] + Literal(def, index + 1);
    ParseOfLast(before, def, values[0]);
  }

  lemma RenderedLine(before: string, def: Definition, values: seq<string>, index: nat)
    requires values != []
    ensures before + Render(values, def, index) ==
            before + values[0] + Literal(def, index + 1) + Render(values[1..], def, index + 1)
  {
  }

  lemma {:induction false} ParseOfRender(before: string, def: Definition, values: seq<string>, index: nat)
    requires index < |def.keys| && |values| == |def.keys| - index
    ensures ParseFrom(before + Render(values, def, index), def, |before|, index) == Ok(values) <==>
            Separable(def, values, index)
    decreases |values|
  {
    var next, rest := Literal(def, index + 1), Render(values[1..], def, index + 1);
    if |values| == 1 { LastCase(before, def, values, index); }
    else {
      RenderedLine(before, def, values, index);
      if ValueEndsAtLiteral(values[0], next) {
        EndsRight(before, def, values, index, rest);
        ParseOfRender(before + values[0] + next, def, values[1..], index + 1);
        ShiftCondition(def, values, index);
      } else {
        EndsEarly(before, def, values, index, rest);
        assert !ValueEndsAtLiteral(values[0], Literal(def, index + 1 + 0));
      }
    }
  }

  lemma HeadDiffers(value: string, values: seq<string>, rest: Result<seq<string>, LineError>)
    requires values != [] && values[0] != value
    ensures Behind([value], rest) != Ok(values)
  {
  }

  lemma HeadMatters(value: string, values: seq<string>, rest: Result<seq<string>, LineError>)
    requires values != [] && values[0] == value
    ensures Behind([value], rest) == Ok(values) <==> rest == Ok(values[1..])
  {
    assert values == [value] + values[1..];
    if rest.Ok? { assert ([value] + rest.value)[1..] == rest.value; }
  }

  function Completed(payload: Payload, def: Definition): Payload { map k | k in def.keys :: Get(payload, k) }

  /** Main result: a rendered payload parses back to its values exactly when
      every value but the last ends where its literal is first found.  The last
      value may be anything. */
  lemma ParseAfterFormat(payload: Payload, def: Definition)
    requires def.keys != [] && Distinct(def.keys)
    ensures ParseLine(Format(payload, def), def) == Ok(Completed(payload, def)) <==>
            forall i :: 0 <= i < |def.keys| - 1 ==> ValueEndsAtLiteral(Get(payload, def.keys[i]), Literal(def, i + 1))
  {
    var n := |def.keys|;
    var values := seq(n, i requires 0 <= i < n => Get(payload, def.keys[i]));
    ParseAfterFormatOf(payload, def, values);
    SeparableMeans(def, payload, values);
  }

  /** A value, not the last, that contains the literal after it is not read back. */
  lemma ContainedLiteralIsLost(payload: Payload, def: Definition, i: nat, p: nat)
    requires Distinct(def.keys) && i + 1 < |def.keys| && Literal(def, i + 1) != ""
    requires At(Get(payload, def.keys[i]), Literal(def, i + 1), p)
    ensures ParseLine(Format(payload, def), def) != Ok(Completed(payload, def))
  {
    var value, literal := Get(payload, def.keys[i]), Literal(def, i + 1);
    assert (value + literal)[p..p + |literal|] == value[p..p + |literal|];
    assert At(value + literal, literal, p) && p < |value|;
    IndexFound(value + literal, literal, 0);
    assert !ValueEndsAtLiteral(value, literal);
    ParseAfterFormat(payload, def);
  }

  /** Two fields with a dash between them, the first of which holds a dash. */
  lemma DashInValueIsLost()
    ensures var def := Definition(["a", "b"], ["", "-", ""], true); var payload := map["a" := "x-y", "b" := "z"];
      && Format(payload, def) == "x-y-z"
      && ParseLine(Format(payload, def), def) != Ok(Completed(payload, def))
  {
    var def := Definition(["a", "b"], ["", "-", ""], true);
    var payload := map["a" := "x-y", "b" := "z"];
    assert FormatFrom(payload, def, 2) == "" && FormatFrom(payload, def, 1) == "z";
    assert FormatFrom(payload, def, 0) == "x-y" + "-" + "z";
    assert At("x-y", "-", 1);
    ContainedLiteralIsLost(payload, def, 0, 1);
  }

  lemma ParseAfterFormatOf(payload: Payload, def: Definition, values: seq<string>)
    requires def.keys != [] && Distinct(def.keys)
    requires |values| == |def.keys| && forall i :: 0 <= i < |values| ==> values[i] == Get(payload, def.keys[i])
    ensures ParseLine(Format(payload, def), def) == Ok(Completed(payload, def)) <==> Separable(def, values, 0)
  {
    FormatIsRender(payload, def, values, 0);
    ParseOfRender(Literal(def, 0), def, values, 0);
    PayloadOfLine(Format(payload, def), def, payload, values);
  }

  lemma PayloadOfLine(line: string, def: Definition, payload: Payload, values: seq<string>)
    requires def.keys != [] && Distinct(def.keys)
    requires At(line, Literal(def, 0), 0)
    requires |values| == |def.keys| && forall i :: 0 <= i < |values| ==> values[i] == Get(payload, def.keys[i])
    ensures ParseLine(line, def) == Ok(Completed(payload, def)) <==>
            ParseFrom(line, def, |Literal(def, 0)|, 0) == Ok(values)
  {
    var parsed := ParseFrom(line, def, |Literal(def, 0)|, 0);
    if parsed.Ok? {
      ParsedIsRendered(line, def, |Literal(def, 0)|, 0);
      EntriesOf(def.keys, parsed.value, Completed(payload, def));
      SameList(def, payload, parsed.value, values);
    }
  }

  lemma SameList(def: Definition, payload: Payload, parsed: seq<string>, values: seq<string>)
    requires |parsed| == |values| == |def.keys|
    requires forall i :: 0 <= i < |values| ==> values[i] == Get(payload, def.keys[i])
    ensures parsed == values <==> forall i :: 0 <= i < |def.keys| ==> parsed[i] == Completed(payload, def)[def.keys[i]]
  {
  }

  lemma SeparableMeans(def: Definition, payload: Payload, values: seq<string>)
    requires |values| == |def.keys| && forall i :: 0 <= i < |values| ==> values[i] == Get(payload, def.keys[i])
    ensures Separable(def, values, 0) <==>
            forall i :: 0 <= i < |def.keys| - 1 ==> ValueEndsAtLiteral(Get(payload, def.keys[i]), Literal(def, i + 1))
  {
  }

  /** Distinct keys make the payload and the list of values the same thing. */
  lemma EntriesOf(keys: seq<string>, values: seq<string>, payload: Payload)
    requires Distinct(keys) && |values| == |keys| && (forall k :: k in payload <==> k in keys)
    ensures FromEntries(keys, values) == payload <==> forall i :: 0 <= i < |keys| ==> values[i] == payload[keys[i]]
  {
    FromEntriesKeys(keys, values);
    forall i | 0 <= i < |keys| ensures FromEntries(keys, values)[keys[i]] == values[i] {
      FromEntriesAt(keys, values, i);
    }
    if forall i :: 0 <= i < |keys| ==> values[i] == payload[keys[i]] {
      forall k | k in payload ensures FromEntries(keys, values)[k] == payload[k] {
        var i :| 0 <= i < |keys| && keys[i] == k;
      }
    }
  }

  // ---- Which patterns print every line back --------------------------------

  predicate Separated(def: Definition) { forall i :: 1 <= i < |def.keys| ==> Literal(def, i) != "" }

  /** One value of a single character, all others empty. */
  function OneMark(n: nat, i: nat, c: char): (values: seq<string>)
    ensures |values| == n && forall k :: 0 <= k < n ==> values[k] == if k == i then [c] else ""
  {
    seq(n, k => if k == i then [c] else "")
  }

  lemma MarkEnds(c: char, literal: string)
    requires literal != "" && literal[0] != c
    ensures ValueEndsAtLiteral([c], literal)
  {
    var s := [c] + literal;
    IndexFound(s, literal, 0);
    assert s[1..1 + |literal|] == literal;
    assert s[0..|literal|][0] == c;
  }

  lemma BlankEnds(literal: string)
    ensures ValueEndsAtLiteral("", literal)
  {
    assert "" + literal == literal && literal[0..|literal|] == literal;
  }

  lemma MarkSeparable(def: Definition, i: nat, c: char)
    requires Separated(def) && i + 1 < |def.keys| && Literal(def, i + 1)[0] != c
    ensures Separable(def, OneMark(|def.keys|, i, c), 0)
  {
    var values := OneMark(|def.keys|, i, c);
    forall k | 0 <= k < |values| - 1 ensures ValueEndsAtLiteral(values[k], Literal(def, 0 + 1 + k)) {
      if k == i { MarkEnds(c, Literal(def, i + 1)); } else { BlankEnds(Literal(def, k + 1)); }
    }
  }

  /** The later of two equal keys overwrites the mark. */
  lemma {:induction false} MarkIsLost(keys: seq<string>, m: nat, i: nat, j: nat, values: seq<string>, key: string)
    requires i < j < |keys| == |values| && m <= |keys| && keys[i] == keys[j]
    requires forall k :: 0 <= k < |values| && k != i ==> values[k] == ""
    requires key == keys[i] ==> m <= i || j < m
    ensures Get(FromEntries(keys[..m], values), key) == ""
  {
    if m > 0 {
      assert keys[..m][..m - 1] == keys[..m - 1];
      if key != keys[m - 1] { MarkIsLost(keys, m - 1, i, j, values, key); }
    }
  }

  lemma {:induction false} MarkCounts(a: seq<string>, b: seq<string>, def: Definition, index: nat, i: nat)
    requires |a| == |b| && i < |a| && |a[i]| == |b[i]| + 1
    requires forall k :: 0 <= k < |a| && k != i ==> a[k] == b[k]
    ensures |Render(a, def, index)| == |Render(b, def, index)| + 1
    decreases |a|
  {
    if i == 0 { assert a[1..] == b[1..]; } else { MarkCounts(a[1..], b[1..], def, index + 1, i - 1); }
  }

  function OtherChar(c: char): (d: char)
    ensures d != c
  {
    if c == 'a' then 'b' else 'a'
  }

  lemma MarkedParses(def: Definition, i: nat, c: char)
    requires Separated(def) && i + 1 < |def.keys| && Literal(def, i + 1)[0] != c
    ensures var values := OneMark(|def.keys|, i, c);
      ParseLine(Literal(def, 0) + Render(values, def, 0), def) == Ok(FromEntries(def.keys, values))
  {
    var values := OneMark(|def.keys|, i, c);
    MarkSeparable(def, i, c);
    ParseOfRender(Literal(def, 0), def, values, 0);
  }

  lemma MarkedFormats(def: Definition, i: nat, j: nat, c: char)
    requires i < j < |def.keys| && def.keys[i] == def.keys[j]
    ensures var values := OneMark(|def.keys|, i, c);
      |Format(FromEntries(def.keys, values), def)| + 1 == |Literal(def, 0) + Render(values, def, 0)|
  {
    var n := |def.keys|;
    var values, blank := OneMark(n, i, c), seq(n, _ => "");
    var payload := FromEntries(def.keys, values);
    assert def.keys[..n] == def.keys;
    forall k | 0 <= k < n ensures Get(payload, def.keys[k]) == blank[k] {
      MarkIsLost(def.keys, n, i, j, values, def.keys[k]);
    }
    FormatIsRender(payload, def, blank, 0);
    MarkCounts(values, blank, def, 0, i);
  }

  /** Every pattern that repeats a key has a line it parses and prints shorter. */
  lemma RepeatedKeyLosesText(def: Definition, i: nat, j: nat) returns (line: string)
    requires Separated(def) && i < j < |def.keys| && def.keys[i] == def.keys[j]
    ensures ParseLine(line, def).Ok? && |Format(ParseLine(line, def).value, def)| + 1 == |line|
  {
    var c := OtherChar(Literal(def, i + 1)[0]);
    line := Literal(def, 0) + Render(OneMark(|def.keys|, i, c), def, 0);
    MarkedParses(def, i, c);
    MarkedFormats(def, i, j, c);
  }

  ghost predicate PrintsLinesBack(def: Definition) {
    forall line :: ParseLine(line, def).Ok? ==> Format(ParseLine(line, def).value, def) == line
  }

  /** Main result: a pattern with text between its values prints every line it
      parses back if and only if it repeats no key. */
  lemma PrintsBackIffDistinct(def: Definition)
    requires def.keys != [] && Separated(def)
    ensures PrintsLinesBack(def) <==> Distinct(def.keys)
  {
    if Distinct(def.keys) {
      forall line | ParseLine(line, def).Ok? ensures Format(ParseLine(line, def).value, def) == line {
        FormatAfterParse(line, def);
      }
    } else {
      var i, j :| 0 <= i < j < |def.keys| && def.keys[i] == def.keys[j];
      var line := RepeatedKeyLosesText(def, i, j);
    }
  }

  // ---- What the customer sees ----------------------------------------------

  function JoinVisible(payload: Payload, keys: seq<string>, visible: set<string>, first: bool): string {
    if keys == [] then ""
    else if keys[0] !in visible then JoinVisible(payload, keys[1..], visible, first)
    else (if first then "" else "----") + Get(payload, keys[0]) + JoinVisible(payload, keys[1..], visible, false)
  }

  /** All fields visible: the pattern's own layout; otherwise one compact line. */
  function FormatForCustomer(payload: Payload, def: Definition, visible: set<string>): string {
    if forall k :: k in def.keys ==> k in visible then Format(payload, def)
    else JoinVisible(payload, def.keys, visible, true)
  }

  /** Main result: what a customer is sent does not depend on a hidden field. */
  lemma HiddenFieldsStayHidden(a: Payload, b: Payload, def: Definition, visible: set<string>)
    requires forall k :: k in visible ==> Get(a, k) == Get(b, k)
    ensures FormatForCustomer(a, def, visible) == FormatForCustomer(b, def, visible)
  {
    if forall k :: k in def.keys ==> k in visible { SameValuesSameText(a, b, def, 0); }
    else { SameValuesSameLine(a, b, def.keys, visible, true); }
  }

  lemma {:induction false} SameValuesSameText(a: Payload, b: Payload, def: Definition, index: nat)
    requires forall k :: k in def.keys ==> Get(a, k) == Get(b, k)
    ensures FormatFrom(a, def, index) == FormatFrom(b, def, index)
    decreases |def.keys| - index
  {
    if index < |def.keys| { SameValuesSameText(a, b, def, index + 1); }
  }

  lemma {:induction false} SameValuesSameLine(a: Payload, b: Payload, keys: seq<string>, visible: set<string>,
                                              first: bool)
    requires forall k :: k in visible ==> Get(a, k) == Get(b, k)
    ensures JoinVisible(a, keys, visible, first) == JoinVisible(b, keys, visible, first)
  {
    if keys != [] {
      SameValuesSameLine(a, b, keys[1..], visible, first);
      SameValuesSameLine(a, b, keys[1..], visible, false);
    }
  }

  // ---- The loops -----------------------------------------------------------

  lemma BehindOne(values: seq<string>, value: string, rest: Result<seq<string>, LineError>)
    ensures Behind(values, Behind([value], rest)) == Behind(values + [value], rest)
  {
    if rest.Ok? { assert values + ([value] + rest.value) == (values + [value]) + rest.value; }
  }

  lemma BehindNone(rest: Result<seq<string>, LineError>)
    ensures Behind([], rest) == rest
  {
    if rest.Ok? { assert [] + rest.value == rest.value; }
  }

  method ParseInventoryPatternLine(line: string, def: Definition) returns (r: Result<Payload, LineError>)
    ensures r == ParseLine(line, def)
  {
    var prefix := Literal(def, 0);
    if !At(line, prefix, 0) { return Err(MissingPrefix); }
    var cursor: nat := |prefix|;
    var values: seq<string> := [];
    BehindNone(ParseFrom(line, def, cursor, 0));
    for index := 0 to |def.keys|
      invariant cursor <= |line| && |values| == index
      invariant ParseFrom(line, def, |prefix|, 0) ==
                if index < |def.keys| then Behind(values, ParseFrom(line, def, cursor, index)) else Ok(values)
    {
      var next := Literal(def, index + 1);
      if index == |def.keys| - 1 {
        if next != "" && !EndsWith(line, next) { return Err(MissingSuffix); }
        var end := |line| - |next|;
        if end < cursor { return Err(NoMatch); }
        values := values + [line[cursor..end]];
        cursor := |line|;
      } else {
        var position := IndexOf(line, next, cursor);
        if position.None? { return Err(MissingSeparator); }
        IndexFound(line, next, cursor);
        var value := line[cursor..position.value];
        BehindOne(values, value, ParseFrom(line, def, position.value + |next|, index + 1));
        values := values + [value];
        cursor := position.value + |next|;
      }
    }
    r := Ok(FromEntries(def.keys, values));
  }

  method FormatInventoryPatternPayload(payload: Payload, def: Definition) returns (output: string)
    ensures output == Format(payload, def)
  {
    output := Literal(def, 0);
    for index := 0 to |def.keys|
      invariant Format(payload, def) == output + FormatFrom(payload, def, index)
    {
      output := output + Get(payload, def.keys[index]);
      output := output + Literal(def, index + 1);
    }
  }
}
