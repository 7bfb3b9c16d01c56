/**
 Inventory patterns: parsing a template such as `Email={{email}} | {{password}}`
 or the compact `email----password`, printing one, and the pattern the product
 form generates from a product's fields.
 */
module InventoryTemplates {
  import opened Wrappers
  import opened Text
  import InventoryLines

  type Definition = InventoryLines.Definition

  datatype TemplateError = Empty | NotAPattern | UnsafeKey | InvalidPlaceholder | NothingBetween

  // ---- Placeholders --------------------------------------------------------

  predicate IsBrace(c: char) { c == '{' || c == '}' }

  predicate Double(s: string, c: char, p: nat) { p + 2 <= |s| && s[p] == c && s[p + 1] == c }

  predicate HasDouble(s: string, c: char) { exists p :: 0 <= p <= |s| && Double(s, c, p) }

  /** The end of the run of other characters that starts at `p`. */
  function RunEnd(s: string, p: nat): (q: nat)
    requires p <= |s|
    ensures p <= q <= |s| && (forall k :: p <= k < q ==> !IsBrace(s[k])) && (q < |s| ==> IsBrace(s[q]))
    decreases |s| - p
  {
    if p < |s| && !IsBrace(s[p]) then RunEnd(s, p + 1) else p
  }

  /** The end of the placeholder that starts at `p`: two opening braces, at least
      one other character, two closing braces. */
  function PlaceholderAt(s: string, p: nat): Option<nat> {
    if !Double(s, '{', p) then None
    else
      var q := RunEnd(s, p + 2);
      if q > p + 2 && Double(s, '}', q) then Some(q + 2) else None
  }

  /** The leftmost placeholder from `p` on. */
  function NextPlaceholder(s: string, p: nat): (m: Option<(nat, nat)>)
    ensures m.Some? ==>
            && p <= m.value.0 && m.value.0 + 5 <= m.value.1 <= |s|
            && PlaceholderAt(s, m.value.0) == Some(m.value.1)
    decreases |s| - p
  {
    if p >= |s| then None
    else match PlaceholderAt(s, p)
      case Some(e) => Some((p, e))
      case None => NextPlaceholder(s, p + 1)
  }

  predicate UnsafeChar(c: char) { c == '.' || c == '$' || c as int <= 0x1F || c as int == 0x7F || IsBrace(c) }

  predicate SafeKey(key: string) { key != "" && |key| <= 64 && forall k :: 0 <= k < |key| ==> !UnsafeChar(key[k]) }

  // ---- The custom form -----------------------------------------------------

  datatype Pieces = Pieces(keys: seq<string>, literals: seq<string>)

  /** The text before the next placeholder, its trimmed key, and what follows. */
  datatype Cut = Cut(literal: string, key: string, rest: string)

  function CutAround(text: string, p: nat, e: nat): Cut
    requires p + 4 <= e <= |text|
  {
    Cut(text[..p], Trim(text[p + 2..e - 2]), text[e..])
  }

  function NextCut(text: string): (c: Option<Cut>)
    ensures c.Some? ==> |c.value.rest| < |text|
  {
    match NextPlaceholder(text, 0)
    case None => None
    case Some((p, e)) => Some(CutAround(text, p, e))
  }

  function Consed(key: string, literal: string, more: Result<Pieces, TemplateError>): Result<Pieces, TemplateError> {
    match more
    case Err(e) => Err(e)
    case Ok(p) => Ok(Pieces([key] + p.keys, [literal] + p.literals))
  }

  /** The keys and literals of the text that is left. */
  function Scan(text: string): Result<Pieces, TemplateError>
    decreases |text|
  {
    match NextCut(text)
    case None => Ok(Pieces([], [text]))
    case Some(c) => if !SafeKey(c.key) then Err(UnsafeKey) else Consed(c.key, c.literal, Scan(c.rest))
  }

  predicate CleanLiteral(l: string) { !HasDouble(l, '{') && !HasDouble(l, '}') }

  function Checked(pieces: Pieces): Result<Definition, TemplateError> {
    var n := |pieces.literals|;
    if pieces.keys == [] || exists i :: 0 <= i < n && !CleanLiteral(pieces.literals[i]) then Err(InvalidPlaceholder)
    else if exists i :: 1 <= i < n - 1 && pieces.literals[i] == "" then Err(NothingBetween)
    else Ok(InventoryLines.Definition(pieces.keys, pieces.literals, true))
  }

  function ParseCustom(pattern: string): Result<Definition, TemplateError> {
    match Scan(pattern)
    case Err(e) => Err(e)
    case Ok(pieces) => Checked(pieces)
  }

  // ---- The compact form ----------------------------------------------------

  predicate IsWord(c: char) { 'a' <= c <= 'z' || 'A' <= c <= 'Z' || '0' <= c <= '9' || c == '_' }

  predicate Words(s: string, word: bool) { forall k :: 0 <= k < |s| ==> IsWord(s[k]) == word }

  function PrefixEnd(s: string, word: bool): (n: nat)
    ensures n <= |s| && (forall k :: 0 <= k < n ==> IsWord(s[k]) == word) && (n < |s| ==> IsWord(s[n]) != word)
  {
    if s != "" && IsWord(s[0]) == word then 1 + PrefixEnd(s[1..], word) else 0
  }

  /** The leading word, the separator after it, and what follows. */
  function NextWord(s: string): (c: Option<Cut>)
    ensures c.Some? ==> |c.value.rest| < |s|
  {
    var n := PrefixEnd(s, true);
    if n == |s| then None
    else var m := PrefixEnd(s[n..], false); Some(Cut(s[n..n + m], s[..n], s[n + m..]))
  }

  /** `split` on the separators, keeping them. */
  function Split(s: string): (r: Pieces)
    ensures |r.keys| == |r.literals| + 1
    decreases |s|
  {
    match NextWord(s)
    case None => Pieces([s], [])
    case Some(c) => var more := Split(c.rest); Pieces([c.key] + more.keys, [c.literal] + more.literals)
  }

  predicate LegacyKey(key: string) {
    && 1 <= |key| <= 64 && key[0] != '_'
    && forall k :: 0 <= k < |key| ==> IsWord(key[k]) && !('A' <= key[k] <= 'Z')
  }

  function ParseLegacy(pattern: string): Result<Definition, TemplateError> {
    var pieces := Split(pattern);
    if exists i :: 0 <= i < |pieces.keys| && !LegacyKey(pieces.keys[i]) then Err(NotAPattern)
    else Ok(InventoryLines.Definition(pieces.keys, [""] + pieces.literals + [""], false))
  }

  function ParseTemplate(value: string): Result<Definition, TemplateError> {
    var pattern := Trim(value);
    if pattern == "" then Err(Empty)
    else if HasDouble(pattern, '{') || HasDouble(pattern, '}') then ParseCustom(pattern)
    else ParseLegacy(pattern)
  }

  // ---- Printing ------------------------------------------------------------

  function Placeholder(key: string): string { "{{" + key + "}}" }

  function PrintPieces(keys: seq<string>, literals: seq<string>, custom: bool): string
    requires |literals| == |keys| + 1
  {
    if keys == [] then literals[0]
    else
      literals[0] + (if custom then Placeholder(keys[0]) else keys[0]) +
      PrintPieces(keys[1..], literals[1..], custom)
  }

  function Print(def: Definition): string
    requires |def.literals| == |def.keys| + 1
  {
    PrintPieces(def.keys, def.literals, def.custom)
  }

  /** The definitions a custom template can express. */
  predicate CustomForm(def: Definition) {
    && def.custom && def.keys != [] && |def.literals| == |def.keys| + 1
    && (forall i :: 0 <= i < |def.keys| ==> SafeKey(def.keys[i]) && Trimmed(def.keys[i]))
    && (forall i :: 0 <= i < |def.literals| ==> CleanLiteral(def.literals[i]))
    && (forall i :: 1 <= i < |def.literals| - 1 ==> def.literals[i] != "")
    && (def.literals[0] != "" ==> !IsSpace(def.literals[0][0]))
    && var last := def.literals[|def.literals| - 1]; (last != "" ==> !IsSpace(last[|last| - 1]))
  }

  // ---- Custom round trip ---------------------------------------------------

  lemma NoPlaceholderYet(literal: string, tail: string, p: nat)
    requires !HasDouble(literal, '{') && p < |literal| && (tail == "" || Double(tail, '{', 0))
    ensures PlaceholderAt(literal + tail, p) == None
  {
    var s := literal + tail;
    if Double(s, '{', p) {
      if p + 1 < |literal| { assert Double(literal, '{', p); }
      assert s[p + 2] == tail[1];
    }
  }

  lemma {:induction false} FirstPlaceholder(literal: string, tail: string, p: nat)
    requires !HasDouble(literal, '{') && p <= |literal| && (tail == "" || PlaceholderAt(tail, 0).Some?)
    ensures tail == "" ==> NextPlaceholder(literal + tail, p) == None
    ensures tail != "" ==>
            NextPlaceholder(literal + tail, p) == Some((|literal|, |literal| + PlaceholderAt(tail, 0).value))
    decreases |literal| - p
  {
    if p < |literal| {
      NoPlaceholderYet(literal, tail, p);
      FirstPlaceholder(literal, tail, p + 1);
    } else if tail != "" {
      ShiftPlaceholder(literal, tail);
    }
  }

  lemma ShiftPlaceholder(literal: string, tail: string)
    requires PlaceholderAt(tail, 0).Some?
    ensures PlaceholderAt(literal + tail, |literal|) == Some(|literal| + PlaceholderAt(tail, 0).value)
  {
    var s := literal + tail;
    var q := RunEnd(tail, 2);
    assert Double(s, '{', |literal|);
    assert forall k :: 2 <= k < q ==> s[|literal| + k] == tail[k];
    RunEndIs(s, |literal| + 2, |literal| + q);
    assert Double(s, '}', |literal| + q);
  }

  lemma {:induction false} RunEndIs(s: string, p: nat, q: nat)
    requires p <= q < |s| && (forall k :: p <= k < q ==> !IsBrace(s[k])) && IsBrace(s[q])
    ensures RunEnd(s, p) == q
    decreases q - p
  {
  }

  lemma PlaceholderParses(key: string, tail: string)
    requires key != "" && forall k :: 0 <= k < |key| ==> !IsBrace(key[k])
    ensures PlaceholderAt(Placeholder(key) + tail, 0) == Some(|key| + 4)
  {
    var s := Placeholder(key) + tail;
    assert forall k :: 0 <= k < |key| ==> s[2 + k] == key[k];
    RunEndIs(s, 2, 2 + |key|);
  }

  lemma NextCutIs(literal: string, key: string, rest: string)
    requires !HasDouble(literal, '{') && SafeKey(key) && Trimmed(key)
    ensures NextCut(literal + (Placeholder(key) + rest)) == Some(Cut(literal, key, rest))
  {
    PlaceholderParses(key, rest);
    SliceParts(literal, key, rest);
    NextCutOf(literal, Placeholder(key) + rest, key, rest);
  }

  lemma NextCutOf(literal: string, tail: string, key: string, rest: string)
    requires !HasDouble(literal, '{') && Trimmed(key) && key != "" && PlaceholderAt(tail, 0) == Some(|key| + 4)
    requires var text := literal + tail; var p, e := |literal|, |literal| + |key| + 4;
      e <= |text| && text[..p] == literal && text[p + 2..e - 2] == key && text[e..] == rest
    ensures NextCut(literal + tail) == Some(Cut(literal, key, rest))
  {
    FirstOf(literal, tail, |key| + 4);
    CutOf(literal + tail, |literal|, |literal| + |key| + 4, literal, key, rest);
  }

  lemma FirstOf(literal: string, tail: string, n: nat)
    requires !HasDouble(literal, '{') && PlaceholderAt(tail, 0) == Some(n)
    ensures NextPlaceholder(literal + tail, 0) == Some((|literal|, |literal| + n))
  {
    FirstPlaceholder(literal, tail, 0);
  }

  lemma SliceParts(literal: string, key: string, rest: string)
    ensures var text := literal + (Placeholder(key) + rest); var p, e := |literal|, |literal| + |key| + 4;
      text[p + 2..e - 2] == key && text[e..] == rest && text[..p] == literal
  {
  }

  lemma ScanEnd(literal: string)
    requires !HasDouble(literal, '{')
    ensures Scan(literal) == Ok(Pieces([], [literal]))
  {
  }

  lemma ScanCons(text: string, literal: string, key: string, rest: string)
    requires NextCut(text) == Some(Cut(literal, key, rest)) && SafeKey(key)
    ensures Scan(text) == Consed(key, literal, Scan(rest))
  {
  }

  lemma ConsedAll(keys: seq<string>, literals: seq<string>)
    requires keys != [] && literals != []
    ensures Consed(keys[0], literals[0], Ok(Pieces(keys[1..], literals[1..]))) == Ok(Pieces(keys, literals))
  {
    assert [keys[0]] + keys[1..] == keys && [literals[0]] + literals[1..] == literals;
  }

  lemma PrintStep(keys: seq<string>, literals: seq<string>)
    requires |literals| == |keys| + 1 && keys != []
    ensures PrintPieces(keys, literals, true) ==
            literals[0] + (Placeholder(keys[0]) + PrintPieces(keys[1..], literals[1..], true))
  {
  }

  ghost predicate Printable(keys: seq<string>, literals: seq<string>) {
    && |literals| == |keys| + 1
    && (forall i :: 0 <= i < |keys| ==> SafeKey(keys[i]) && Trimmed(keys[i]))
    && (forall i :: 0 <= i < |literals| ==> CleanLiteral(literals[i]))
  }

  lemma PrintableRest(keys: seq<string>, literals: seq<string>)
    requires Printable(keys, literals) && keys != []
    ensures Printable(keys[1..], literals[1..])
    ensures SafeKey(keys[0]) && Trimmed(keys[0]) && CleanLiteral(literals[0])
  {
  }

  lemma ScanStep(literal: string, key: string, rest: string)
    requires CleanLiteral(literal) && SafeKey(key) && Trimmed(key)
    ensures Scan(literal + (Placeholder(key) + rest)) == Consed(key, literal, Scan(rest))
  {
    NextCutIs(literal, key, rest);
    ScanCons(literal + (Placeholder(key) + rest), literal, key, rest);
  }

  lemma ScanOfPrintStep(keys: seq<string>, literals: seq<string>)
    requires |literals| == |keys| + 1 && keys != []
    requires SafeKey(keys[0]) && Trimmed(keys[0]) && CleanLiteral(literals[0])
    ensures Scan(PrintPieces(keys, literals, true)) ==
            Consed(keys[0], literals[0], Scan(PrintPieces(keys[1..], literals[1..], true)))
  {
    PrintStep(keys, literals);
    ScanStep(literals[0], keys[0], PrintPieces(keys[1..], literals[1..], true));
  }

  lemma {:induction false} ScanOfPrint(keys: seq<string>, literals: seq<string>)
    requires Printable(keys, literals)
    ensures Scan(PrintPieces(keys, literals, true)) == Ok(Pieces(keys, literals))
    decreases |keys|
  {
    if keys == [] {
      assert CleanLiteral(literals[0]);
      ScanEnd(literals[0]);
      assert literals == [literals[0]];
    } else {
      PrintableRest(keys, literals);
      ScanOfPrintStep(keys, literals);
      ScanOfPrint(keys[1..], literals[1..]);
      ConsedAll(keys, literals);
    }
  }

  predicate EndsWith(s: string, part: string) { |part| <= |s| && s[|s| - |part|..] == part }

  /** Keys are safe and trimmed; the outer literals are the ends of the text. */
  predicate Shape(text: string, r: Pieces) {
    && |r.literals| == |r.keys| + 1
    && (forall i :: 0 <= i < |r.keys| ==> SafeKey(r.keys[i]) && Trimmed(r.keys[i]))
    && r.literals[0] <= text
    && EndsWith(text, r.literals[|r.literals| - 1])
  }

  lemma ShapeStep(text: string, p: nat, e: nat, key: string, more: Pieces)
    requires p <= e <= |text| && SafeKey(key) && Trimmed(key) && Shape(text[e..], more)
    ensures Shape(text, Pieces([key] + more.keys, [text[..p]] + more.literals))
  {
  }

  lemma {:induction false} ScanShape(rest: string)
    requires Scan(rest).Ok?
    ensures Shape(rest, Scan(rest).value)
    decreases |rest|
  {
    if NextCut(rest).Some? {
      var (p, e) := NextPlaceholder(rest, 0).value;
      var c := NextCut(rest).value;
      ScanShape(c.rest);
      ShapeStep(rest, p, e, c.key, Scan(c.rest).value);
    }
  }

  lemma ShapeIsCustomForm(pattern: string, r: Pieces)
    requires pattern != "" && Trimmed(pattern) && Shape(pattern, r) && Checked(r).Ok?
    ensures CustomForm(Checked(r).value)
  {
  }

  lemma AcceptedIsCustomForm(value: string)
    requires ParseTemplate(value).Ok? && ParseTemplate(value).value.custom
    ensures CustomForm(ParseTemplate(value).value)
  {
    var pattern := Trim(value);
    assert ParseTemplate(value) == ParseCustom(pattern);
    ScanShape(pattern);
    ShapeIsCustomForm(pattern, Scan(pattern).value);
  }

  lemma {:induction false} PrintEnds(keys: seq<string>, literals: seq<string>, custom: bool)
    requires |literals| == |keys| + 1 && keys != [] && (!custom ==> forall i :: 0 <= i < |keys| ==> keys[i] != "")
    ensures var text := PrintPieces(keys, literals, custom); var last := literals[|keys|];
      && text != ""
      && text[0] == (if literals[0] != "" then literals[0][0] else if custom then '{' else keys[0][0])
      && text[|text| - 1] == (if last != "" then last[|last| - 1] else if custom then '}'
                              else keys[|keys| - 1][|keys[|keys| - 1]| - 1])
    decreases |keys|
  {
    if |keys| > 1 { PrintEnds(keys[1..], literals[1..], custom); }
    else { assert PrintPieces(keys[1..], literals[1..], custom) == literals[1]; }
  }

  lemma TrimmedTemplate(text: string)
    requires text != "" && Trimmed(text)
    ensures HasDouble(text, '{') ==> ParseTemplate(text) == ParseCustom(text)
    ensures !HasDouble(text, '{') && !HasDouble(text, '}') ==> ParseTemplate(text) == ParseLegacy(text)
  {
  }

  lemma CustomFormParses(def: Definition)
    requires CustomForm(def)
    ensures ParseTemplate(Print(def)) == Ok(def)
  {
    PrintEnds(def.keys, def.literals, true);
    StartsPlaceholder(def);
    TrimmedTemplate(Print(def));
    ScanOfPrint(def.keys, def.literals);
    CheckedForm(def);
  }

  lemma CheckedForm(def: Definition)
    requires CustomForm(def)
    ensures Checked(Pieces(def.keys, def.literals)) == Ok(def)
  {
  }

  lemma StartsPlaceholder(def: Definition)
    requires def.custom && def.keys != [] && |def.literals| == |def.keys| + 1
    ensures HasDouble(Print(def), '{')
  {
    var rest := PrintPieces(def.keys[1..], def.literals[1..], true);
    var text := Print(def);
    assert text == def.literals[0] + ("{{" + def.keys[0] + "}}") + rest;
    assert Double(text, '{', |def.literals[0]|);
  }

  /** Main result: a custom definition survives printing and parsing exactly when
      it is one a template can express. */
  lemma CustomRoundTrip(def: Definition)
    requires def.custom && def.keys != [] && |def.literals| == |def.keys| + 1
    ensures ParseTemplate(Print(def)) == Ok(def) <==> CustomForm(def)
  {
    if CustomForm(def) { CustomFormParses(def); }
    else if ParseTemplate(Print(def)) == Ok(def) { AcceptedIsCustomForm(Print(def)); }
  }

  // ---- Compact round trip --------------------------------------------------

  /** The definitions the compact form can express. */
  predicate LegacyForm(def: Definition) {
    var n := |def.keys|;
    && !def.custom && n >= 1 && |def.literals| == n + 1
    && def.literals[0] == "" && def.literals[n] == ""
    && (forall i :: 0 <= i < n ==> LegacyKey(def.keys[i]))
    && (forall i :: 1 <= i < n ==>
          def.literals[i] != "" && CleanLiteral(def.literals[i]) && Words(def.literals[i], false))
  }

  lemma {:induction false} PrefixEndIs(s: string, word: bool, n: nat)
    requires n <= |s| && (forall k :: 0 <= k < n ==> IsWord(s[k]) == word) && (n < |s| ==> IsWord(s[n]) != word)
    ensures PrefixEnd(s, word) == n
  {
  }

  /** Keys joined by separators: what `Split` takes apart. */
  function Interleave(keys: seq<string>, seps: seq<string>): string
    requires |keys| == |seps| + 1
  {
    if seps == [] then keys[0] else keys[0] + seps[0] + Interleave(keys[1..], seps[1..])
  }

  lemma PrefixOfWord(key: string, tail: string, word: bool)
    requires Words(key, word) && (tail == "" || IsWord(tail[0]) != word)
    ensures PrefixEnd(key + tail, word) == |key|
  {
    PrefixEndIs(key + tail, word, |key|);
  }

  lemma NextWordIs(key: string, sep: string, rest: string)
    requires Words(key, true) && Words(sep, false) && sep != "" && rest != "" && IsWord(rest[0])
    ensures NextWord(key + (sep + rest)) == Some(Cut(sep, key, rest))
  {
    var s, n, m := key + (sep + rest), |key|, |sep|;
    PrefixOfWord(key, sep + rest, true);
    PrefixOfWord(sep, rest, false);
    assert s[..n] == key && s[n..] == sep + rest && s[n..n + m] == sep && s[n + m..] == rest;
  }

  lemma SplitWord(key: string)
    requires Words(key, true)
    ensures Split(key) == Pieces([key], [])
  {
  }

  lemma SplitCons(s: string, key: string, sep: string, rest: string)
    requires NextWord(s) == Some(Cut(sep, key, rest))
    ensures Split(s) == Pieces([key] + Split(rest).keys, [sep] + Split(rest).literals)
  {
  }

  lemma InterleaveStep(keys: seq<string>, seps: seq<string>)
    requires |keys| == |seps| + 1 && seps != []
    ensures Interleave(keys, seps) == keys[0] + (seps[0] + Interleave(keys[1..], seps[1..]))
    ensures [keys[0]] + keys[1..] == keys && [seps[0]] + seps[1..] == seps
  {
  }

  lemma {:induction false} SplitOfInterleave(keys: seq<string>, seps: seq<string>)
    requires |keys| == |seps| + 1
    requires forall i :: 0 <= i < |keys| ==> keys[i] != "" && Words(keys[i], true)
    requires forall i :: 0 <= i < |seps| ==> seps[i] != "" && Words(seps[i], false)
    ensures Split(Interleave(keys, seps)) == Pieces(keys, seps)
    decreases |seps|
  {
    if seps == [] {
      SplitWord(keys[0]);
      assert keys == [keys[0]];
    } else {
      var rest := Interleave(keys[1..], seps[1..]);
      SplitOfInterleave(keys[1..], seps[1..]);
      FirstIsWord(keys[1..], seps[1..]);
      InterleaveStep(keys, seps);
      NextWordIs(keys[0], seps[0], rest);
      SplitCons(Interleave(keys, seps), keys[0], seps[0], rest);
    }
  }

  predicate Alternates(s: string, r: Pieces) {
    && |r.keys| == |r.literals| + 1
    && Interleave(r.keys, r.literals) == s
    && (forall i :: 0 <= i < |r.keys| ==> Words(r.keys[i], true))
    && (forall i :: 0 <= i < |r.literals| ==> r.literals[i] != "" && Words(r.literals[i], false))
  }

  lemma AlternatesStep(key: string, sep: string, rest: string, more: Pieces)
    requires Words(key, true) && Words(sep, false) && sep != "" && Alternates(rest, more)
    ensures Alternates(key + sep + rest, Pieces([key] + more.keys, [sep] + more.literals))
  {
  }

  lemma {:induction false} InterleaveOfSplit(s: string)
    ensures Alternates(s, Split(s))
    decreases |s|
  {
    if NextWord(s).Some? {
      var c := NextWord(s).value;
      InterleaveOfSplit(c.rest);
      AlternatesStep(c.key, c.literal, c.rest, Split(c.rest));
      assert s == c.key + c.literal + c.rest;
    }
  }

  lemma {:induction false} PrintIsInterleave(keys: seq<string>, seps: seq<string>, first: string)
    requires |keys| == |seps| + 1
    ensures PrintPieces(keys, [first] + seps + [""], false) == first + Interleave(keys, seps)
    decreases |seps|
  {
    var literals := [first] + seps + [""];
    if seps == [] {
      assert literals[1..] == [""] && keys[1..] == [];
      assert PrintPieces(keys[1..], literals[1..], false) == "";
    } else {
      assert literals[1..] == [seps[0]] + seps[1..] + [""];
      PrintIsInterleave(keys[1..], seps[1..], seps[0]);
    }
  }

  /** No two equal braces meet where words and separators alternate. */
  lemma {:induction false} CleanInterleave(keys: seq<string>, seps: seq<string>, c: char)
    requires |keys| == |seps| + 1 && IsBrace(c)
    requires forall i :: 0 <= i < |keys| ==> keys[i] != "" && Words(keys[i], true)
    requires forall i :: 0 <= i < |seps| ==> Words(seps[i], false)
    ensures HasDouble(Interleave(keys, seps), c) <==> exists i :: 0 <= i < |seps| && HasDouble(seps[i], c)
    decreases |seps|
  {
    var s := Interleave(keys, seps);
    if seps != [] {
      var rest := Interleave(keys[1..], seps[1..]);
      CleanInterleave(keys[1..], seps[1..], c);
      var n, m := |keys[0]|, |seps[0]|;
      FirstIsWord(keys[1..], seps[1..]);
      assert s == keys[0] + seps[0] + rest;
      if p :| 0 <= p <= |s| && Double(s, c, p) {
        assert !IsWord(s[p]) && !IsWord(s[p + 1]);
        if p >= n + m {
          assert Double(rest, c, p - n - m);
          var i :| 0 <= i < |seps[1..]| && HasDouble(seps[1..][i], c);
          assert HasDouble(seps[i + 1], c);
        }
        else { assert Double(seps[0], c, p - n); }
      }
      if i :| 0 <= i < |seps| && HasDouble(seps[i], c) {
        if i == 0 {
          var p :| 0 <= p <= m && Double(seps[0], c, p);
          assert Double(s, c, n + p);
        } else {
          assert seps[1..][i - 1] == seps[i];
          var p :| 0 <= p <= |rest| && Double(rest, c, p);
          assert Double(s, c, n + m + p);
        }
      }
    } else { assert forall p :: 0 <= p < |s| ==> IsWord(s[p]); }
  }

  lemma FirstIsWord(keys: seq<string>, seps: seq<string>)
    requires |keys| == |seps| + 1 && keys[0] != "" && Words(keys[0], true)
    ensures Interleave(keys, seps) != "" && IsWord(Interleave(keys, seps)[0])
  {
  }

  lemma LegacyParses(keys: seq<string>, seps: seq<string>)
    requires |keys| == |seps| + 1
    requires forall i :: 0 <= i < |keys| ==> LegacyKey(keys[i])
    requires forall i :: 0 <= i < |seps| ==> seps[i] != "" && Words(seps[i], false) && CleanLiteral(seps[i])
    ensures ParseTemplate(Interleave(keys, seps)) == Ok(InventoryLines.Definition(keys, [""] + seps + [""], false))
  {
    var s := Interleave(keys, seps);
    assert forall i :: 0 <= i < |keys| ==> keys[i] != "" && Words(keys[i], true);
    SplitOfInterleave(keys, seps);
    CleanInterleave(keys, seps, '{');
    CleanInterleave(keys, seps, '}');
    LastIsWord(keys, seps);
    TrimmedTemplate(s);
  }

  lemma {:induction false} LastIsWord(keys: seq<string>, seps: seq<string>)
    requires |keys| == |seps| + 1 && forall i :: 0 <= i < |keys| ==> keys[i] != "" && Words(keys[i], true)
    ensures var s := Interleave(keys, seps); s != "" && IsWord(s[|s| - 1])
    decreases |seps|
  {
    if seps != [] { LastIsWord(keys[1..], seps[1..]); }
  }

  lemma LegacyFormParses(def: Definition)
    requires LegacyForm(def)
    ensures ParseTemplate(Print(def)) == Ok(def)
  {
    var n := |def.keys|;
    var seps := def.literals[1..n];
    assert def.literals == [""] + seps + [""];
    PrintIsInterleave(def.keys, seps, "");
    assert "" + Interleave(def.keys, seps) == Interleave(def.keys, seps);
    LegacyParses(def.keys, seps);
  }

  lemma CleanSeparators(keys: seq<string>, seps: seq<string>)
    requires |keys| == |seps| + 1
    requires forall i :: 0 <= i < |keys| ==> keys[i] != "" && Words(keys[i], true)
    requires forall i :: 0 <= i < |seps| ==> Words(seps[i], false)
    requires !HasDouble(Interleave(keys, seps), '{') && !HasDouble(Interleave(keys, seps), '}')
    ensures forall i :: 0 <= i < |seps| ==> CleanLiteral(seps[i])
  {
    CleanInterleave(keys, seps, '{');
    CleanInterleave(keys, seps, '}');
  }

  /** Parsing a compact pattern loses nothing but the white space around it. */
  lemma LegacyPrintsBack(value: string)
    requires ParseTemplate(value).Ok? && !ParseTemplate(value).value.custom
    ensures LegacyForm(ParseTemplate(value).value) && Print(ParseTemplate(value).value) == Trim(value)
  {
    var pattern := Trim(value);
    InterleaveOfSplit(pattern);
    assert ParseTemplate(value) == ParseLegacy(pattern);
    LegacyShape(pattern, Split(pattern));
  }

  /** Main result: a compact definition survives printing and parsing exactly when
      it is one the compact form can express. */
  lemma LegacyRoundTrip(def: Definition)
    requires !def.custom && |def.literals| == |def.keys| + 1
    ensures ParseTemplate(Print(def)) == Ok(def) <==> LegacyForm(def)
  {
    if LegacyForm(def) { LegacyFormParses(def); }
    else if ParseTemplate(Print(def)) == Ok(def) { LegacyPrintsBack(Print(def)); }
  }

  lemma LegacyShape(pattern: string, r: Pieces)
    requires Alternates(pattern, r) && !HasDouble(pattern, '{') && !HasDouble(pattern, '}')
    requires forall i :: 0 <= i < |r.keys| ==> LegacyKey(r.keys[i])
    ensures var def := InventoryLines.Definition(r.keys, [""] + r.literals + [""], false);
      LegacyForm(def) && Print(def) == pattern
  {
    PrintIsInterleave(r.keys, r.literals, "");
    assert "" + pattern == pattern;
    CleanSeparators(r.keys, r.literals);
    SeparatorsFit(r.keys, r.literals);
  }

  lemma SeparatorsFit(keys: seq<string>, seps: seq<string>)
    requires |keys| == |seps| + 1
    requires forall i :: 0 <= i < |keys| ==> LegacyKey(keys[i])
    requires forall i :: 0 <= i < |seps| ==> seps[i] != "" && Words(seps[i], false) && CleanLiteral(seps[i])
    ensures LegacyForm(InventoryLines.Definition(keys, [""] + seps + [""], false))
  {
  }

  /** Main result: every accepted template, custom or compact, means the same
      after it is printed in its normal form. */
  lemma NormalFormIsStable(value: string)
    requires ParseTemplate(value).Ok?
    ensures |ParseTemplate(value).value.literals| == |ParseTemplate(value).value.keys| + 1
    ensures ParseTemplate(Print(ParseTemplate(value).value)) == ParseTemplate(value)
  {
    var def := ParseTemplate(value).value;
    if def.custom {
      AcceptedIsCustomForm(value);
      CustomRoundTrip(def);
    } else {
      LegacyPrintsBack(value);
      LegacyRoundTrip(def);
    }
  }

  /** Main result: an accepted template, custom or compact, prints every line it
      parses back if and only if it names no field twice. */
  lemma AcceptedPrintsLinesBack(value: string)
    requires ParseTemplate(value).Ok?
    ensures InventoryLines.PrintsLinesBack(ParseTemplate(value).value) <==>
            InventoryLines.Distinct(ParseTemplate(value).value.keys)
  {
    var def := ParseTemplate(value).value;
    if def.custom { AcceptedIsCustomForm(value); } else { LegacyPrintsBack(value); }
    InventoryLines.PrintsBackIffDistinct(def);
  }

  /** `indexOf` of a key in a list that has it. */
  function FirstIndex(keys: seq<string>, key: string): nat
    requires key in keys
  {
    if keys[0] == key then 0 else 1 + FirstIndex(keys[1..], key)
  }

  /** What saving a product refuses. */
  predicate RepeatsField(keys: seq<string>) { exists k :: 0 <= k < |keys| && FirstIndex(keys, keys[k]) != k }

  lemma {:induction false} FirstIndexIsFirst(keys: seq<string>, key: string)
    requires key in keys
    ensures FirstIndex(keys, key) < |keys| && keys[FirstIndex(keys, key)] == key
    ensures forall k :: 0 <= k < FirstIndex(keys, key) ==> keys[k] != key
  {
    if keys[0] != key { FirstIndexIsFirst(keys[1..], key); }
  }

  /** Main result: a pattern that can be saved with a product prints every line it
      parses back. */
  lemma SavedPatternPrintsLinesBack(value: string)
    requires ParseTemplate(value).Ok?
    ensures InventoryLines.PrintsLinesBack(ParseTemplate(value).value) <==>
            !RepeatsField(ParseTemplate(value).value.keys)
  {
    var keys := ParseTemplate(value).value.keys;
    AcceptedPrintsLinesBack(value);
    forall k | 0 <= k < |keys| ensures FirstIndex(keys, keys[k]) <= k && keys[FirstIndex(keys, keys[k])] == keys[k] {
      FirstIndexIsFirst(keys, keys[k]);
    }
  }

  // ---- The matching loop ---------------------------------------------------

  lemma {:induction false} PlaceholderInRest(s: string, from: nat, p: nat)
    requires from <= |s|
    ensures NextPlaceholder(s, from + p) ==
            match NextPlaceholder(s[from..], p) case None => None case Some((a, e)) => Some((from + a, from + e))
    decreases |s| - from - p
  {
    if from + p < |s| {
      PlaceholderAtRest(s, from, p);
      PlaceholderInRest(s, from, p + 1);
    }
  }

  lemma PlaceholderAtRest(s: string, from: nat, p: nat)
    requires from + p <= |s|
    ensures PlaceholderAt(s, from + p) == match PlaceholderAt(s[from..], p)
            case None => None
            case Some(e) => Some(from + e)
  {
  }

  function Behind(done: Pieces, rest: Result<Pieces, TemplateError>): Result<Pieces, TemplateError> {
    match rest
    case Err(e) => Err(e)
    case Ok(p) => Ok(Pieces(done.keys + p.keys, done.literals + p.literals))
  }

  lemma BehindCut(done: Pieces, c: Cut, rest: Result<Pieces, TemplateError>)
    ensures Behind(done, Consed(c.key, c.literal, rest)) ==
            Behind(Pieces(done.keys + [c.key], done.literals + [c.literal]), rest)
  {
    if rest.Ok? {
      assert done.keys + ([c.key] + rest.value.keys) == (done.keys + [c.key]) + rest.value.keys;
      assert done.literals + ([c.literal] + rest.value.literals) == (done.literals + [c.literal]) + rest.value.literals;
    }
  }

  lemma BehindNothing(rest: Result<Pieces, TemplateError>)
    ensures Behind(Pieces([], []), rest) == rest
  {
    if rest.Ok? { assert [] + rest.value.keys == rest.value.keys && [] + rest.value.literals == rest.value.literals; }
  }

  lemma CutAt(pattern: string, cursor: nat, start: nat, end: nat)
    requires cursor <= |pattern| && NextPlaceholder(pattern, cursor) == Some((start, end))
    ensures cursor <= start && start + 5 <= end <= |pattern|
    ensures NextCut(pattern[cursor..]) ==
            Some(Cut(pattern[cursor..start], Trim(pattern[start + 2..end - 2]), pattern[end..]))
  {
    PlaceholderOfRest(pattern, cursor, start, end);
    FoundCut(pattern[cursor..], start - cursor, end - cursor);
    AroundRest(pattern, cursor, start, end);
  }

  lemma AroundRest(pattern: string, cursor: nat, start: nat, end: nat)
    requires cursor <= start && start + 5 <= end <= |pattern|
    ensures CutAround(pattern[cursor..], start - cursor, end - cursor) ==
            Cut(pattern[cursor..start], Trim(pattern[start + 2..end - 2]), pattern[end..])
  {
    SliceOfRest(pattern, cursor, start, end);
  }

  lemma PlaceholderOfRest(pattern: string, cursor: nat, start: nat, end: nat)
    requires cursor <= |pattern| && NextPlaceholder(pattern, cursor) == Some((start, end))
    ensures cursor <= start && start + 5 <= end <= |pattern|
    ensures NextPlaceholder(pattern[cursor..], 0) == Some((start - cursor, end - cursor))
  {
    PlaceholderInRest(pattern, cursor, 0);
  }

  lemma CutOf(text: string, start: nat, end: nat, literal: string, inner: string, after: string)
    requires start + 5 <= end <= |text| && NextPlaceholder(text, 0) == Some((start, end))
    requires text[..start] == literal && text[start + 2..end - 2] == inner && text[end..] == after
    ensures NextCut(text) == Some(Cut(literal, Trim(inner), after))
  {
    CutAroundIs(text, start, end, literal, inner, after);
    FoundCut(text, start, end);
  }

  lemma FoundCut(text: string, start: nat, end: nat)
    requires start + 5 <= end <= |text| && NextPlaceholder(text, 0) == Some((start, end))
    ensures NextCut(text) == Some(CutAround(text, start, end))
  {
  }

  lemma CutAroundIs(text: string, start: nat, end: nat, literal: string, inner: string, after: string)
    requires start + 5 <= end <= |text|
    requires text[..start] == literal && text[start + 2..end - 2] == inner && text[end..] == after
    ensures CutAround(text, start, end) == Cut(literal, Trim(inner), after)
  {
  }

  lemma SliceOfRest(pattern: string, cursor: nat, start: nat, end: nat)
    requires cursor <= start && start + 5 <= end <= |pattern|
    ensures var rest := pattern[cursor..];
      && rest[..start - cursor] == pattern[cursor..start]
      && rest[start - cursor + 2..end - cursor - 2] == pattern[start + 2..end - 2]
      && rest[end - cursor..] == pattern[end..]
  {
  }

  lemma ScanUnsafe(text: string, c: Cut)
    requires NextCut(text) == Some(c) && !SafeKey(c.key)
    ensures Scan(text) == Err(UnsafeKey)
  {
  }

  lemma ScanRest(pattern: string, cursor: nat)
    requires cursor <= |pattern| && NextPlaceholder(pattern, cursor) == None
    ensures Scan(pattern[cursor..]) == Ok(Pieces([], [pattern[cursor..]]))
  {
    PlaceholderInRest(pattern, cursor, 0);
  }

  lemma Advance(text: string, done: Pieces, c: Cut)
    requires NextCut(text) == Some(c) && SafeKey(c.key)
    ensures Behind(done, Scan(text)) == Behind(Pieces(done.keys + [c.key], done.literals + [c.literal]), Scan(c.rest))
  {
    ScanCons(text, c.literal, c.key, c.rest);
    BehindCut(done, c, Scan(c.rest));
  }

  /** `matchAll` from a cursor, collecting keys and the literals between them. */
  method ParseCustomInventoryPattern(pattern: string) returns (r: Result<Definition, TemplateError>)
    ensures r == ParseCustom(pattern)
  {
    var keys: seq<string>, literals: seq<string>, cursor: nat := [], [], 0;
    assert pattern[0..] == pattern;
    BehindNothing(Scan(pattern));
    var found := NextPlaceholder(pattern, cursor);
    while found.Some?
      invariant cursor <= |pattern| && found == NextPlaceholder(pattern, cursor)
      invariant Scan(pattern) == Behind(Pieces(keys, literals), Scan(pattern[cursor..]))
      decreases |pattern| - cursor
    {
      var start: nat, end: nat := found.value.0, found.value.1;
      CutAt(pattern, cursor, start, end);
      var literal, key := pattern[cursor..start], Trim(pattern[start + 2..end - 2]);
      if !SafeKey(key) {
        ScanUnsafe(pattern[cursor..], Cut(literal, key, pattern[end..]));
        return Err(UnsafeKey);
      }
      Advance(pattern[cursor..], Pieces(keys, literals), Cut(literal, key, pattern[end..]));
      literals := literals + [literal];
      keys := keys + [key];
      cursor := end;
      found := NextPlaceholder(pattern, cursor);
    }
    ScanRest(pattern, cursor);
    assert keys + [] == keys;
    literals := literals + [pattern[cursor..]];
    r := Checked(Pieces(keys, literals));
  }
}
