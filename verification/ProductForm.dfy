/**
 The pattern the product form derives from a product's fields, which the
 template parser must accept as written.
 */
module ProductForm {
  import opened Wrappers
  import opened Text
  import InventoryLines
  import opened InventoryTemplates

  datatype Field = Field(key: string, visibleToCustomer: bool, sortOrder: int)

  /** Inserts behind every field that does not sort later. */
  function Insert(sorted: seq<Field>, f: Field): seq<Field> {
    if sorted == [] then [f]
    else
      var last := sorted[|sorted| - 1];
      if last.sortOrder <= f.sortOrder then sorted + [f] else Insert(sorted[..|sorted| - 1], f) + [last]
  }

  /** The stable sort by `sortOrder`. */
  function Ordered(fields: seq<Field>): seq<Field> {
    if fields == [] then [] else Insert(Ordered(fields[..|fields| - 1]), fields[|fields| - 1])
  }

  predicate Sorted(fields: seq<Field>) {
    forall i, j :: 0 <= i < j < |fields| ==> fields[i].sortOrder <= fields[j].sortOrder
  }

  /** The fields with one sort order, as they come. */
  function WithOrder(fields: seq<Field>, order: int): seq<Field> {
    if fields == [] then []
    else
      var last := fields[|fields| - 1];
      WithOrder(fields[..|fields| - 1], order) + if last.sortOrder == order then [last] else []
  }

  lemma WithOrderAppend(fields: seq<Field>, f: Field, order: int)
    ensures WithOrder(fields + [f], order) == WithOrder(fields, order) + if f.sortOrder == order then [f] else []
  {
  }

  lemma {:induction false} InsertKeepsFields(sorted: seq<Field>, f: Field)
    ensures forall g :: g in Insert(sorted, f) <==> g in sorted || g == f
  {
    if sorted != [] {
      var n := |sorted| - 1;
      assert sorted == sorted[..n] + [sorted[n]];
      InsertKeepsFields(sorted[..n], f);
    }
  }

  lemma SortedAppend(sorted: seq<Field>, f: Field)
    requires Sorted(sorted) && forall g :: g in sorted ==> g.sortOrder <= f.sortOrder
    ensures Sorted(sorted + [f])
  {
  }

  lemma {:induction false} InsertSorts(sorted: seq<Field>, f: Field)
    requires Sorted(sorted)
    ensures Sorted(Insert(sorted, f))
  {
    if sorted != [] {
      var n := |sorted| - 1;
      var last := sorted[n];
      if last.sortOrder <= f.sortOrder { SortedAppend(sorted, f); }
      else {
        InsertSorts(sorted[..n], f);
        InsertKeepsFields(sorted[..n], f);
        SortedAppend(Insert(sorted[..n], f), last);
      }
    }
  }

  lemma {:induction false} InsertIsStable(sorted: seq<Field>, f: Field, order: int)
    ensures WithOrder(Insert(sorted, f), order) == WithOrder(sorted, order) + if f.sortOrder == order then [f] else []
  {
    if sorted == [] { WithOrderAppend([], f, order); assert [] + [f] == [f]; }
    else {
      var n := |sorted| - 1;
      var last := sorted[n];
      if last.sortOrder <= f.sortOrder { WithOrderAppend(sorted, f, order); }
      else {
        InsertIsStable(sorted[..n], f, order);
        WithOrderAppend(Insert(sorted[..n], f), last, order);
      }
    }
  }

  lemma {:induction false} OrderedSorts(fields: seq<Field>)
    ensures Sorted(Ordered(fields))
  {
    if fields != [] {
      OrderedSorts(fields[..|fields| - 1]);
      InsertSorts(Ordered(fields[..|fields| - 1]), fields[|fields| - 1]);
    }
  }

  lemma {:induction false} OrderedKeepsFields(fields: seq<Field>, f: Field)
    ensures f in Ordered(fields) <==> f in fields
  {
    if fields != [] {
      var n := |fields| - 1;
      OrderedKeepsFields(fields[..n], f);
      InsertKeepsFields(Ordered(fields[..n]), fields[n]);
      assert fields == fields[..n] + [fields[n]];
    }
  }

  lemma {:induction false} OrderedIsStable(fields: seq<Field>, order: int)
    ensures WithOrder(Ordered(fields), order) == WithOrder(fields, order)
  {
    if fields != [] {
      OrderedIsStable(fields[..|fields| - 1], order);
      InsertIsStable(Ordered(fields[..|fields| - 1]), fields[|fields| - 1], order);
    }
  }

  /** The order of the fields: sorted, and unchanged among equal sort orders. */
  lemma OrderedIsStableSort(fields: seq<Field>, order: int)
    ensures Sorted(Ordered(fields))
    ensures WithOrder(Ordered(fields), order) == WithOrder(fields, order)
    ensures forall f :: f in Ordered(fields) <==> f in fields
  {
    OrderedSorts(fields);
    OrderedIsStable(fields, order);
    forall f ensures f in Ordered(fields) <==> f in fields { OrderedKeepsFields(fields, f); }
  }

  function TrimmedKeys(fields: seq<Field>): (keys: seq<string>)
    ensures |keys| == |fields| && forall i :: 0 <= i < |fields| ==> keys[i] == Trim(fields[i].key)
  {
    if fields == [] then [] else [Trim(fields[0].key)] + TrimmedKeys(fields[1..])
  }

  /** `map` to placeholders, `join('----')`. */
  function JoinPlaceholders(keys: seq<string>): string {
    if keys == [] then ""
    else if |keys| == 1 then Placeholder(keys[0])
    else Placeholder(keys[0]) + ("----" + JoinPlaceholders(keys[1..]))
  }

  function InventoryPattern(fields: seq<Field>): string { JoinPlaceholders(TrimmedKeys(Ordered(fields))) }

  function Visible(fields: seq<Field>): seq<Field> {
    if fields == [] then [] else (if fields[0].visibleToCustomer then [fields[0]] else []) + Visible(fields[1..])
  }

  function Dashes(n: nat): seq<string> { if n == 0 then [] else ["----"] + Dashes(n - 1) }

  /** What the generated pattern should mean. */
  function Generated(keys: seq<string>): InventoryLines.Definition
    requires keys != []
  {
    InventoryLines.Definition(keys, [""] + Dashes(|keys| - 1) + [""], true)
  }

  lemma {:induction false} DashesShape(n: nat)
    ensures |Dashes(n)| == n && forall i :: 0 <= i < n ==> Dashes(n)[i] == "----"
  {
    if n > 0 { DashesShape(n - 1); }
  }

  lemma {:induction false} JoinIsPrint(keys: seq<string>, first: string)
    requires keys != []
    ensures |Dashes(|keys| - 1)| == |keys| - 1
    ensures PrintPieces(keys, [first] + Dashes(|keys| - 1) + [""], true) == first + JoinPlaceholders(keys)
    decreases |keys|
  {
    DashesShape(|keys| - 1);
    var literals := [first] + Dashes(|keys| - 1) + [""];
    if |keys| == 1 {
      assert literals[1..] == [""] && keys[1..] == [];
      assert PrintPieces(keys[1..], literals[1..], true) == "";
    } else {
      JoinIsPrint(keys[1..], "----");
      assert literals[1..] == ["----"] + Dashes(|keys| - 2) + [""];
    }
  }

  predicate AllSafe(keys: seq<string>) { forall i :: 0 <= i < |keys| ==> SafeKey(keys[i]) }

  predicate AllTrimmed(keys: seq<string>) { forall i :: 0 <= i < |keys| ==> Trimmed(keys[i]) }

  lemma GeneratedLiterals(keys: seq<string>)
    requires keys != []
    ensures var literals := Generated(keys).literals;
      |literals| == |keys| + 1 && (forall i :: 0 <= i < |literals| ==>
        literals[i] == if i == 0 || i == |keys| then "" else "----")
  {
    DashesShape(|keys| - 1);
  }

  lemma GeneratedForm(keys: seq<string>)
    requires keys != [] && AllTrimmed(keys)
    ensures CustomForm(Generated(keys)) <==> AllSafe(keys)
  {
    GeneratedLiterals(keys);
    assert CleanLiteral("") && CleanLiteral("----");
  }

  lemma JoinPrints(keys: seq<string>)
    requires keys != []
    ensures |Generated(keys).literals| == |keys| + 1 && JoinPlaceholders(keys) == Print(Generated(keys))
  {
    JoinIsPrint(keys, "");
    GeneratedLiterals(keys);
    assert "" + JoinPlaceholders(keys) == JoinPlaceholders(keys);
  }

  /** Main result: joined placeholders are read back as exactly their keys, in
      their order and with dashes between, if and only if every key is safe. */
  lemma JoinIsAccepted(keys: seq<string>)
    requires keys != [] && AllTrimmed(keys)
    ensures ParseTemplate(JoinPlaceholders(keys)) == Ok(Generated(keys)) <==> AllSafe(keys)
  {
    JoinPrints(keys);
    CustomRoundTrip(Generated(keys));
    GeneratedForm(keys);
  }

  /** Main result: the generated pattern is always accepted for safe keys, with
      the product's fields in their sort order. */
  lemma GeneratedPatternIsAccepted(fields: seq<Field>)
    requires fields != []
    ensures Ordered(fields) != []
    ensures ParseTemplate(InventoryPattern(fields)) == Ok(Generated(TrimmedKeys(Ordered(fields)))) <==>
            forall f :: f in fields ==> SafeKey(Trim(f.key))
  {
    OrderedIsStableSort(fields, 0);
    assert fields[0] in fields && fields[0] in Ordered(fields);
    var ordered, keys := Ordered(fields), TrimmedKeys(Ordered(fields));
    assert AllTrimmed(keys);
    JoinIsAccepted(keys);
    if AllSafe(keys) {
      forall f | f in fields ensures SafeKey(Trim(f.key)) {
        assert f in ordered;
        var i :| 0 <= i < |ordered| && ordered[i] == f;
        assert SafeKey(keys[i]);
      }
    }
    if forall f :: f in fields ==> SafeKey(Trim(f.key)) {
      forall i | 0 <= i < |keys| ensures SafeKey(keys[i]) { assert ordered[i] in ordered; }
    }
  }

  // ---- What the customer is sent -------------------------------------------

  const NOTHING_VISIBLE := "Dữ liệu: {{payload}}"

  function DeliveryTemplate(fields: seq<Field>): string {
    var visible := Visible(Ordered(fields));
    if visible == [] then NOTHING_VISIBLE else JoinPlaceholders(TrimmedKeys(visible))
  }

  /** `replace` of every placeholder by its value. */
  function RenderTemplate(template: string, payload: InventoryLines.Payload): string
    decreases |template|
  {
    match NextCut(template)
    case None => template
    case Some(c) => c.literal + (InventoryLines.Get(payload, c.key) + RenderTemplate(c.rest, payload))
  }

  function JoinValues(payload: InventoryLines.Payload, keys: seq<string>): string {
    if keys == [] then ""
    else if |keys| == 1 then InventoryLines.Get(payload, keys[0])
    else InventoryLines.Get(payload, keys[0]) + ("----" + JoinValues(payload, keys[1..]))
  }

  lemma RenderCut(literal: string, key: string, rest: string, payload: InventoryLines.Payload)
    requires CleanLiteral(literal) && SafeKey(key) && Trimmed(key)
    ensures RenderTemplate(literal + (Placeholder(key) + rest), payload) ==
            literal + (InventoryLines.Get(payload, key) + RenderTemplate(rest, payload))
  {
    NextCutIs(literal, key, rest);
  }

  lemma RenderLast(literal: string, key: string, payload: InventoryLines.Payload)
    requires CleanLiteral(literal) && SafeKey(key) && Trimmed(key)
    ensures RenderTemplate(literal + Placeholder(key), payload) == literal + InventoryLines.Get(payload, key)
  {
    RenderCut(literal, key, "", payload);
    assert Placeholder(key) + "" == Placeholder(key);
    assert RenderTemplate("", payload) == "" &&
           InventoryLines.Get(payload, key) + "" == InventoryLines.Get(payload, key);
  }

  lemma SafeRest(keys: seq<string>)
    requires keys != [] && AllTrimmed(keys) && AllSafe(keys)
    ensures SafeKey(keys[0]) && Trimmed(keys[0]) && AllTrimmed(keys[1..]) && AllSafe(keys[1..])
  {
  }

  lemma RenderMore(literal: string, keys: seq<string>, payload: InventoryLines.Payload)
    requires CleanLiteral(literal) && |keys| > 1 && SafeKey(keys[0]) && Trimmed(keys[0])
    ensures RenderTemplate(literal + JoinPlaceholders(keys), payload) ==
            literal + (InventoryLines.Get(payload, keys[0]) +
              RenderTemplate("----" + JoinPlaceholders(keys[1..]), payload))
  {
    RenderCut(literal, keys[0], "----" + JoinPlaceholders(keys[1..]), payload);
  }

  lemma ValuesMore(keys: seq<string>, payload: InventoryLines.Payload, rest: string)
    requires |keys| > 1 && rest == "----" + JoinValues(payload, keys[1..])
    ensures JoinValues(payload, keys) == InventoryLines.Get(payload, keys[0]) + rest
  {
  }

  lemma DashesAreClean()
    ensures CleanLiteral("----") && CleanLiteral("")
  {
  }

  lemma {:induction false} RenderJoined(literal: string, keys: seq<string>, payload: InventoryLines.Payload)
    requires CleanLiteral(literal) && keys != [] && AllTrimmed(keys) && AllSafe(keys)
    ensures RenderTemplate(literal + JoinPlaceholders(keys), payload) == literal + JoinValues(payload, keys)
    decreases |keys|
  {
    if |keys| == 1 { RenderLast(literal, keys[0], payload); }
    else {
      var more := RenderTemplate("----" + JoinPlaceholders(keys[1..]), payload);
      assert more == "----" + JoinValues(payload, keys[1..]) by {
        SafeRest(keys);
        DashesAreClean();
        RenderJoined("----", keys[1..], payload);
      }
      RenderMore(literal, keys, payload);
      ValuesMore(keys, payload, more);
    }
  }

  lemma GeneratedLiteral(keys: seq<string>, index: nat)
    requires index < |keys|
    ensures InventoryLines.Literal(Generated(keys), index + 1) == if index == |keys| - 1 then "" else "----"
  {
    GeneratedLiterals(keys);
  }

  lemma JoinValuesFrom(payload: InventoryLines.Payload, keys: seq<string>, index: nat)
    requires index < |keys|
    ensures JoinValues(payload, keys[index..]) ==
            if index == |keys| - 1 then InventoryLines.Get(payload, keys[index])
            else InventoryLines.Get(payload, keys[index]) + "----" + JoinValues(payload, keys[index + 1..])
  {
    assert keys[index..][1..] == keys[index + 1..];
  }

  lemma {:induction false} GeneratedFormat(payload: InventoryLines.Payload, keys: seq<string>, index: nat)
    requires index < |keys|
    ensures InventoryLines.FormatFrom(payload, Generated(keys), index) == JoinValues(payload, keys[index..])
    decreases |keys| - index
  {
    GeneratedLiteral(keys, index);
    JoinValuesFrom(payload, keys, index);
    if index < |keys| - 1 { GeneratedFormat(payload, keys, index + 1); }
  }

  /** Each field is shown when its key is. */
  predicate ShownByKey(fields: seq<Field>, shown: set<string>) {
    forall f :: f in fields ==> Trimmed(f.key) && (f.visibleToCustomer <==> f.key in shown)
  }

  function Dashed(first: bool, keys: seq<string>, payload: InventoryLines.Payload): string {
    if keys == [] then "" else (if first then "" else "----") + JoinValues(payload, keys)
  }

  lemma Associates(a: string, b: string, c: string)
    ensures (a + b) + c == a + (b + c)
  {
  }

  lemma DashedCons(first: bool, key: string, keys: seq<string>, payload: InventoryLines.Payload)
    ensures Dashed(first, [key] + keys, payload) ==
            (if first then "" else "----") + InventoryLines.Get(payload, key) + Dashed(false, keys, payload)
  {
    var sep := if first then "" else "----";
    assert ([key] + keys)[1..] == keys;
    if keys == [] { assert sep + InventoryLines.Get(payload, key) + "" == sep + InventoryLines.Get(payload, key); }
    else { Associates(sep, InventoryLines.Get(payload, key), "----" + JoinValues(payload, keys)); }
  }

  lemma FieldsCons(fields: seq<Field>)
    requires fields != []
    ensures TrimmedKeys(fields)[1..] == TrimmedKeys(fields[1..])
    ensures TrimmedKeys(Visible(fields)) ==
            if fields[0].visibleToCustomer then [Trim(fields[0].key)] + TrimmedKeys(Visible(fields[1..]))
            else TrimmedKeys(Visible(fields[1..]))
  {
    var rest := Visible(fields[1..]);
    if fields[0].visibleToCustomer { assert ([fields[0]] + rest)[1..] == rest; } else { assert [] + rest == rest; }
  }

  lemma {:induction false} JoinVisibleIs(payload: InventoryLines.Payload, fields: seq<Field>, shown: set<string>,
                                         first: bool)
    requires ShownByKey(fields, shown)
    ensures InventoryLines.JoinVisible(payload, TrimmedKeys(fields), shown, first) ==
            Dashed(first, TrimmedKeys(Visible(fields)), payload)
  {
    if fields != [] {
      FieldsCons(fields);
      assert fields[0] in fields;
      if fields[0].visibleToCustomer {
        JoinVisibleIs(payload, fields[1..], shown, false);
        DashedCons(first, Trim(fields[0].key), TrimmedKeys(Visible(fields[1..])), payload);
      } else { JoinVisibleIs(payload, fields[1..], shown, first); }
    }
  }

  lemma {:induction false} AllVisible(fields: seq<Field>)
    requires forall f :: f in fields ==> f.visibleToCustomer
    ensures Visible(fields) == fields
  {
    if fields != [] { AllVisible(fields[1..]); }
  }

  lemma {:induction false} VisibleAre(fields: seq<Field>, f: Field)
    ensures f in Visible(fields) <==> f in fields && f.visibleToCustomer
  {
    if fields != [] { VisibleAre(fields[1..], f); }
  }

  lemma CustomerLine(payload: InventoryLines.Payload, ordered: seq<Field>, shown: set<string>)
    requires ordered != [] && ShownByKey(ordered, shown)
    ensures InventoryLines.FormatForCustomer(payload, Generated(TrimmedKeys(ordered)), shown) ==
            JoinValues(payload, TrimmedKeys(Visible(ordered)))
  {
    var keys := TrimmedKeys(ordered);
    if forall k :: k in keys ==> k in shown {
      forall f | f in ordered ensures f.visibleToCustomer {
        var i :| 0 <= i < |ordered| && ordered[i] == f;
        assert keys[i] in keys;
      }
      AllVisible(ordered);
      GeneratedFormat(payload, keys, 0);
      GeneratedLiterals(keys);
      assert keys[0..] == keys;
      assert "" + JoinValues(payload, keys) == JoinValues(payload, keys);
    } else {
      JoinVisibleIs(payload, ordered, shown, true);
      assert "" + JoinValues(payload, TrimmedKeys(Visible(ordered))) ==
             JoinValues(payload, TrimmedKeys(Visible(ordered)));
    }
  }

  lemma NothingShown(payload: InventoryLines.Payload, ordered: seq<Field>, shown: set<string>)
    requires ordered != [] && ShownByKey(ordered, shown) && Visible(ordered) == []
    ensures InventoryLines.FormatForCustomer(payload, Generated(TrimmedKeys(ordered)), shown) == ""
  {
    CustomerLine(payload, ordered, shown);
  }

  lemma FallbackText(payload: InventoryLines.Payload)
    ensures RenderTemplate(NOTHING_VISIBLE, payload) != ""
  {
    var key := "payload";
    var lead := "Dữ liệu: ";
    assert CleanLiteral(lead);
    assert SafeKey(key) && Trimmed(key);
    assert NOTHING_VISIBLE == lead + (Placeholder(key) + "");
    RenderCut(lead, key, "", payload);
  }

  /** The pattern gives the customer the template's text. */
  predicate SameText(fields: seq<Field>, payload: InventoryLines.Payload, shown: set<string>) {
    && ParseTemplate(InventoryPattern(fields)).Ok?
    && InventoryLines.FormatForCustomer(payload, ParseTemplate(InventoryPattern(fields)).value, shown) ==
       RenderTemplate(DeliveryTemplate(fields), payload)
  }

  predicate SafeFields(fields: seq<Field>) { forall f :: f in fields ==> SafeKey(f.key) }

  predicate SomeVisible(fields: seq<Field>) { exists f :: f in fields && f.visibleToCustomer }

  lemma VisibleWhenSome(fields: seq<Field>)
    ensures Visible(Ordered(fields)) != [] <==> SomeVisible(fields)
  {
    OrderedIsStableSort(fields, 0);
    var visible := Visible(Ordered(fields));
    if visible != [] { VisibleAre(Ordered(fields), visible[0]); }
    else { forall f | f in fields ensures !f.visibleToCustomer { VisibleAre(Ordered(fields), f); } }
  }

  lemma GeneratedIsAccepted(fields: seq<Field>, shown: set<string>)
    requires fields != [] && ShownByKey(fields, shown) && SafeFields(fields)
    ensures Ordered(fields) != [] && ShownByKey(Ordered(fields), shown)
    ensures ParseTemplate(InventoryPattern(fields)) == Ok(Generated(TrimmedKeys(Ordered(fields))))
  {
    OrderedIsStableSort(fields, 0);
    GeneratedPatternIsAccepted(fields);
  }

  lemma TemplateLine(payload: InventoryLines.Payload, visible: seq<Field>)
    requires visible != [] && forall i :: 0 <= i < |visible| ==> Trimmed(visible[i].key) && SafeKey(visible[i].key)
    ensures RenderTemplate(JoinPlaceholders(TrimmedKeys(visible)), payload) == JoinValues(payload, TrimmedKeys(visible))
  {
    var keys := TrimmedKeys(visible);
    DashesAreClean();
    RenderJoined("", keys, payload);
    assert "" + JoinPlaceholders(keys) == JoinPlaceholders(keys) &&
           "" + JoinValues(payload, keys) == JoinValues(payload, keys);
  }

  lemma VisibleRendersAlike(fields: seq<Field>, payload: InventoryLines.Payload, shown: set<string>)
    requires ShownByKey(fields, shown) && SafeFields(fields) && Visible(Ordered(fields)) != []
    ensures SameText(fields, payload, shown)
  {
    var visible := Visible(Ordered(fields));
    OrderedIsStableSort(fields, 0);
    VisibleAre(Ordered(fields), visible[0]);
    assert visible[0] in fields;
    GeneratedIsAccepted(fields, shown);
    CustomerLine(payload, Ordered(fields), shown);
    forall i | 0 <= i < |visible| ensures Trimmed(visible[i].key) && SafeKey(visible[i].key) {
      VisibleAre(Ordered(fields), visible[i]);
      assert visible[i] in fields;
    }
    TemplateLine(payload, visible);
  }

  lemma HiddenRendersApart(fields: seq<Field>, payload: InventoryLines.Payload, shown: set<string>)
    requires ShownByKey(fields, shown) && SafeFields(fields) && Visible(Ordered(fields)) == []
    ensures !SameText(fields, payload, shown)
  {
    if fields == [] { assert Trim("") == "" && InventoryPattern(fields) == ""; }
    else {
      GeneratedIsAccepted(fields, shown);
      NothingShown(payload, Ordered(fields), shown);
      FallbackText(payload);
    }
  }

  /** Main result: for a product whose format was generated, with safe and trimmed
      keys none of which is both shown and hidden, the pattern is accepted and
      sends the customer the text of the template it falls back to, whatever the
      payload, if and only if some field is visible.  With none visible the two
      differ on every payload. */
  lemma PatternAndTemplateAgree(fields: seq<Field>, payload: InventoryLines.Payload, shown: set<string>)
    requires ShownByKey(fields, shown) && SafeFields(fields)
    ensures SameText(fields, payload, shown) <==> SomeVisible(fields)
  {
    VisibleWhenSome(fields);
    if SomeVisible(fields) { VisibleRendersAlike(fields, payload, shown); }
    else { HiddenRendersApart(fields, payload, shown); }
  }

  /** A product whose only field is hidden: its pattern sends nothing, and its
      template the whole payload. */
  lemma HiddenFieldRendersApart(payload: InventoryLines.Payload)
    ensures !SameText([Field("secret", false, 0)], payload, {})
  {
    var fields := [Field("secret", false, 0)];
    assert SafeKey("secret") && Trimmed("secret");
    PatternAndTemplateAgree(fields, payload, {});
  }
}
