/**
 The two query plans of the repeat-purchase report.  One groups every order by
 checkout.  The other picks candidate checkouts by date and loads each of them
 whole through three indexed lookups: by payment request, by wallet purchase
 group, and by order id.
 */
module RepeatPurchases {
  import opened Wrappers
  import Streaks

  /** A database identifier, as its 24 hexadecimal digits. */
  type ObjectId = id: seq<nat> | |id| == 24 && forall k :: 0 <= k < |id| ==> id[k] < 16
    witness seq(24, _ => 0)

  function HexDigit(d: nat): char
    requires d < 16
  {
    "0123456789abcdef"[d]
  }

  function HexValue(c: char): Option<nat> {
    if '0' <= c <= '9' then Some(c as int - '0' as int)
    else if 'a' <= c <= 'f' then Some(c as int - 'a' as int + 10)
    else if 'A' <= c <= 'F' then Some(c as int - 'A' as int + 10)
    else None
  }

  /** `$toString` of an identifier: lower-case digits. */
  function PrintId(id: ObjectId): string { seq(24, k requires 0 <= k < 24 => HexDigit(id[k])) }

  /** `$convert` to an identifier accepts both cases; anything else is null. */
  function ParseId(s: string): Option<ObjectId> {
    if |s| == 24 && forall k :: 0 <= k < |s| ==> HexValue(s[k]).Some?
    then Some(seq(24, k requires 0 <= k < 24 => HexValue(s[k]).value))
    else None
  }

  /** What the metadata fields may hold. */
  datatype Key = Text(text: string) | Ref(id: ObjectId)

  datatype Order = Order(id: ObjectId, user: nat, product: nat, createdAt: int, delivered: bool,
                         quantity: Option<nat>, total: nat, payment: Option<Key>, walletGroup: Option<Key>)

  datatype Checkout = Checkout(user: nat, product: nat, purchase: Key)

  /** `purchaseKey`: payment request, else wallet group, else the order itself. */
  function KeyOf(o: Order): Key {
    if o.payment.Some? then o.payment.value else
    if o.walletGroup.Some? then o.walletGroup.value else Text(PrintId(o.id))
  }

  function CheckoutOf(o: Order): Checkout { Checkout(o.user, o.product, KeyOf(o)) }

  datatype Totals = Totals(purchasedAt: int, deliveredCount: nat, quantity: nat, totalSpent: nat)

  function TotalsOf(o: Order): Totals {
    Totals(o.createdAt, if o.delivered then 1 else 0,
           if o.delivered then (if o.quantity.Some? then o.quantity.value else 1) else 0,
           if o.delivered then o.total else 0)
  }

  /** `$min` and `$sum` of the totals that are there. */
  function Join(a: Option<Totals>, b: Option<Totals>): Option<Totals> {
    match (a, b)
    case (None, _) => b
    case (_, None) => a
    case (Some(x), Some(y)) =>
      Some(Totals(if x.purchasedAt <= y.purchasedAt then x.purchasedAt else y.purchasedAt,
                  x.deliveredCount + y.deliveredCount, x.quantity + y.quantity, x.totalSpent + y.totalSpent))
  }

  /** `$match` then `$group`: no document at all when nothing matches. */
  function Group(orders: seq<Order>, matches: Order -> bool): Option<Totals> {
    if orders == [] then None
    else
      var last := orders[|orders| - 1];
      Join(Group(orders[..|orders| - 1], matches), if matches(last) then Some(TotalsOf(last)) else None)
  }

  datatype Range = Range(start: int, end: int)

  predicate InRange(t: int, r: Range) { r.start <= t < r.end }

  // ---- The plan that groups once -------------------------------------------

  function Own(c: Checkout): Order -> bool { (o: Order) => CheckoutOf(o) == c }

  function Whole(orders: seq<Order>, c: Checkout): Option<Totals> { Group(orders, Own(c)) }

  function Checkouts(orders: seq<Order>): set<Checkout> { set o | o in orders :: CheckoutOf(o) }

  function GroupedPlan(orders: seq<Order>): map<Checkout, Option<Totals>> {
    map c | c in Checkouts(orders) :: Whole(orders, c)
  }

  // ---- The plan that looks candidates up -----------------------------------

  predicate OfCustomer(o: Order, c: Checkout) { o.user == c.user && o.product == c.product }

  predicate PaymentMatch(o: Order, c: Checkout) { OfCustomer(o, c) && o.payment == Some(c.purchase) }

  predicate WalletMatch(o: Order, c: Checkout) {
    OfCustomer(o, c) && o.payment.None? && o.walletGroup == Some(c.purchase)
  }

  predicate SingleMatch(o: Order, c: Checkout) {
    && OfCustomer(o, c) && c.purchase.Text? && ParseId(c.purchase.text) == Some(o.id)
    && o.payment.None? && o.walletGroup.None?
  }

  function LookedUp(orders: seq<Order>, c: Checkout): Option<Totals> {
    Join(Join(Group(orders, (o: Order) => PaymentMatch(o, c)), Group(orders, (o: Order) => WalletMatch(o, c))),
         Group(orders, (o: Order) => SingleMatch(o, c)))
  }

  function Candidates(orders: seq<Order>, r: Range): set<Checkout> {
    set o | o in orders && InRange(o.createdAt, r) :: CheckoutOf(o)
  }

  function IndexedPlan(orders: seq<Order>, r: Range): map<Checkout, Option<Totals>> {
    map c | c in Candidates(orders, r) :: LookedUp(orders, c)
  }

  // ---- The filter both plans share -----------------------------------------

  predicate Reported(t: Option<Totals>, r: Range) {
    t.Some? && t.value.deliveredCount > 0 && InRange(t.value.purchasedAt, r)
  }

  function Filtered(plan: map<Checkout, Option<Totals>>, r: Range): map<Checkout, Totals> {
    map c | c in plan && Reported(plan[c], r) :: plan[c].value
  }

  // ---- The two plans agree -------------------------------------------------

  /** A single order the lookups add to a checkout that is not its own: the
      checkout's key is another way of writing the order's identifier. */
  predicate Stray(o: Order, c: Checkout) { SingleMatch(o, c) && PrintId(o.id) != c.purchase.text }

  lemma DigitValue(d: nat)
    requires d < 16
    ensures HexValue(HexDigit(d)) == Some(d)
  {
  }

  lemma ParsePrint(id: ObjectId)
    ensures ParseId(PrintId(id)) == Some(id)
  {
    var s := PrintId(id);
    forall k | 0 <= k < 24 ensures HexValue(s[k]) == Some(id[k]) { DigitValue(id[k]); }
    assert ParseId(s).value == id;
  }

  predicate LowerCase(s: string) { forall k :: 0 <= k < |s| ==> !('A' <= s[k] <= 'F') }

  /** Only upper-case spellings are ambiguous. */
  lemma LowerCaseIsCanonical(s: string)
    requires ParseId(s).Some?
    ensures LowerCase(s) <==> PrintId(ParseId(s).value) == s
  {
  }

  lemma JoinLaws(a: Option<Totals>, b: Option<Totals>, c: Option<Totals>)
    ensures Join(a, b) == Join(b, a)
    ensures Join(Join(a, b), c) == Join(a, Join(b, c))
  {
  }

  /** Grouping what either of two exclusive filters lets through is joining
      the two groups. */
  lemma {:induction false} GroupSplits(orders: seq<Order>, p: Order -> bool, q: Order -> bool, both: Order -> bool)
    requires forall o :: o in orders ==> (both(o) <==> p(o) || q(o)) && !(p(o) && q(o))
    ensures Join(Group(orders, p), Group(orders, q)) == Group(orders, both)
  {
    if orders != [] {
      var n := |orders| - 1;
      var last := orders[n];
      assert forall o :: o in orders[..n] ==> o in orders;
      GroupSplits(orders[..n], p, q, both);
      assert last in orders;
      var a, b := Group(orders[..n], p), Group(orders[..n], q);
      JoinLaws(a, b, if both(last) then Some(TotalsOf(last)) else None);
      JoinLaws(a, Some(TotalsOf(last)), b);
      JoinLaws(b, Some(TotalsOf(last)), None);
    }
  }

  /** What the lookups load: the checkout, and its strays. */
  function Loaded(c: Checkout): Order -> bool { (o: Order) => CheckoutOf(o) == c || Stray(o, c) }

  lemma LookedUpIsWholeAndStrays(orders: seq<Order>, c: Checkout)
    ensures LookedUp(orders, c) == Join(Whole(orders, c), Group(orders, (o: Order) => Stray(o, c)))
    ensures LookedUp(orders, c) == Group(orders, Loaded(c))
  {
    var pay := (o: Order) => PaymentMatch(o, c);
    var wallet := (o: Order) => WalletMatch(o, c);
    var single := (o: Order) => SingleMatch(o, c);
    var payOrWallet := (o: Order) => PaymentMatch(o, c) || WalletMatch(o, c);
    var stray := (o: Order) => Stray(o, c);
    forall o | o in orders
      ensures (Loaded(c)(o) <==> payOrWallet(o) || single(o)) && !(payOrWallet(o) && single(o)) &&
              !(Own(c)(o) && stray(o))
    {
      ParsePrint(o.id);
    }
    GroupSplits(orders, pay, wallet, payOrWallet);
    GroupSplits(orders, payOrWallet, single, Loaded(c));
    GroupSplits(orders, Own(c), stray, Loaded(c));
  }

  /** Neither delivered nor before the first. */
  predicate AddsNothing(o: Order, whole: Totals) { !o.delivered && o.createdAt >= whole.purchasedAt }

  lemma {:induction false} GroupAddsNothing(orders: seq<Order>, p: Order -> bool, whole: Totals)
    ensures (forall o :: o in orders && p(o) ==> AddsNothing(o, whole)) <==>
            Join(Some(whole), Group(orders, p)) == Some(whole)
  {
    if orders != [] {
      var n := |orders| - 1;
      GroupAddsNothing(orders[..n], p, whole);
      assert orders == orders[..n] + [orders[n]];
      assert orders[n] in orders;
      assert forall o :: o in orders <==> o in orders[..n] || o == orders[n];
    }
  }

  lemma {:induction false} GroupExists(orders: seq<Order>, p: Order -> bool)
    ensures Group(orders, p).Some? <==> exists o :: o in orders && p(o)
    ensures forall o :: o in orders && p(o) ==> Group(orders, p).value.purchasedAt <= o.createdAt
    ensures Group(orders, p).Some? ==>
            exists o :: o in orders && p(o) && o.createdAt == Group(orders, p).value.purchasedAt
  {
    if orders != [] {
      var n := |orders| - 1;
      GroupExists(orders[..n], p);
      assert forall o :: o in orders <==> o in orders[..n] || o == orders[n];
      if Group(orders[..n], p).Some? {
        var f :| f in orders[..n] && p(f) && f.createdAt == Group(orders[..n], p).value.purchasedAt;
        assert f in orders;
      }
    }
  }

  lemma {:induction false} GroupDelivered(orders: seq<Order>, p: Order -> bool)
    ensures Group(orders, p).Some? && Group(orders, p).value.deliveredCount > 0 <==>
            exists o :: o in orders && p(o) && o.delivered
  {
    if orders != [] {
      var n := |orders| - 1;
      GroupDelivered(orders[..n], p);
      assert forall o :: o in orders <==> o in orders[..n] || o == orders[n];
    }
  }

  /** A stray that changes nothing: not delivered, and not the first of the checkout. */
  predicate Harmless(orders: seq<Order>, o: Order, c: Checkout) {
    !o.delivered && exists w :: w in orders && CheckoutOf(w) == c && w.createdAt <= o.createdAt
  }

  /** Exactly when the lookups load a checkout right. */
  lemma LookupIsExact(orders: seq<Order>, c: Checkout)
    requires c in Checkouts(orders)
    ensures LookedUp(orders, c) == Whole(orders, c) <==>
            forall o :: o in orders && Stray(o, c) ==> Harmless(orders, o, c)
  {
    GroupExists(orders, Own(c));
    var w :| w in orders && CheckoutOf(w) == c;
    assert Own(c)(w);
    var whole := Whole(orders, c).value;
    var first :| first in orders && Own(c)(first) && first.createdAt == whole.purchasedAt;
    LookedUpIsWholeAndStrays(orders, c);
    var stray := (o: Order) => Stray(o, c);
    GroupAddsNothing(orders, stray, whole);
    forall o | o in orders && stray(o) ensures AddsNothing(o, whole) <==> Harmless(orders, o, c) {
      assert CheckoutOf(first) == c;
      if u :| u in orders && CheckoutOf(u) == c && u.createdAt <= o.createdAt { assert Own(c)(u); }
    }
  }

  /** Some of these orders were delivered, and the first of them is in the range. */
  ghost predicate Counts(orders: seq<Order>, p: Order -> bool, r: Range) {
    && (exists o :: o in orders && p(o) && o.delivered)
    && (exists o :: o in orders && p(o) && InRange(o.createdAt, r))
    && (forall o :: o in orders && p(o) ==> r.start <= o.createdAt)
  }

  lemma ReportedMeans(orders: seq<Order>, p: Order -> bool, r: Range)
    ensures Reported(Group(orders, p), r) <==> Counts(orders, p, r)
  {
    GroupExists(orders, p);
    GroupDelivered(orders, p);
  }

  /** Checkouts the date filter misses are dropped by the report anyway. */
  lemma MissedIsUnreported(orders: seq<Order>, r: Range, c: Checkout)
    requires c !in Candidates(orders, r)
    ensures !Reported(Whole(orders, c), r)
  {
    ReportedMeans(orders, Own(c), r);
    forall o | o in orders && InRange(o.createdAt, r) ensures !Own(c)(o) {
      assert CheckoutOf(o) in Candidates(orders, r);
    }
  }

  /** A candidate the two plans report alike: its strays are harmless, or neither
      its own orders nor all the loaded ones count. */
  ghost predicate AgreesOn(orders: seq<Order>, r: Range, c: Checkout) {
    || (!Counts(orders, Own(c), r) && !Counts(orders, Loaded(c), r))
    || (forall o :: o in orders && Stray(o, c) ==> Harmless(orders, o, c))
  }

  lemma AgreesOnMeans(orders: seq<Order>, r: Range, c: Checkout)
    requires c in Checkouts(orders)
    ensures AgreesOn(orders, r, c) <==>
      var whole, loaded := Whole(orders, c), LookedUp(orders, c);
      (Reported(whole, r) <==> Reported(loaded, r)) && (Reported(whole, r) ==> whole == loaded)
  {
    LookupIsExact(orders, c);
    LookedUpIsWholeAndStrays(orders, c);
    ReportedMeans(orders, Own(c), r);
    ReportedMeans(orders, Loaded(c), r);
  }

  predicate SameEntry(a: map<Checkout, Totals>, b: map<Checkout, Totals>, c: Checkout) {
    (c in a <==> c in b) && (c in a && c in b ==> a[c] == b[c])
  }

  lemma SameEntryMeans(orders: seq<Order>, r: Range, c: Checkout)
    ensures c in Candidates(orders, r) ==>
      (AgreesOn(orders, r, c) <==> SameEntry(Filtered(IndexedPlan(orders, r), r), Filtered(GroupedPlan(orders), r), c))
    ensures c !in Candidates(orders, r) ==>
              SameEntry(Filtered(IndexedPlan(orders, r), r), Filtered(GroupedPlan(orders), r), c)
  {
    if c in Candidates(orders, r) {
      assert c in Checkouts(orders);
      AgreesOnMeans(orders, r, c);
    } else if c in Checkouts(orders) { MissedIsUnreported(orders, r, c); }
  }

  /** Main result: for every collection and range, the plans give the same
      report exactly when no candidate checkout has a stray that counts. */
  lemma PlansAgreeExactly(orders: seq<Order>, r: Range)
    ensures Filtered(IndexedPlan(orders, r), r) == Filtered(GroupedPlan(orders), r) <==>
            forall c :: c in Candidates(orders, r) ==> AgreesOn(orders, r, c)
  {
    forall c
      ensures c in Candidates(orders, r) ==>
        (AgreesOn(orders, r, c) <==>
           SameEntry(Filtered(IndexedPlan(orders, r), r), Filtered(GroupedPlan(orders), r), c))
      ensures c !in Candidates(orders, r) ==>
                SameEntry(Filtered(IndexedPlan(orders, r), r), Filtered(GroupedPlan(orders), r), c)
    { SameEntryMeans(orders, r, c); }
    MapsEqual(Filtered(IndexedPlan(orders, r), r), Filtered(GroupedPlan(orders), r));
  }

  lemma MapsEqual(a: map<Checkout, Totals>, b: map<Checkout, Totals>)
    ensures a == b <==> forall c :: SameEntry(a, b, c)
  {
    if forall c :: SameEntry(a, b, c) {
      assert forall c :: c in a ==> SameEntry(a, b, c);
      assert forall c :: c in b ==> SameEntry(a, b, c);
      assert a.Keys == b.Keys;
    }
  }

  /** With keys as the shop writes them, in lower case, the plans always agree. */
  lemma PlansAgreeOnCanonicalKeys(orders: seq<Order>, r: Range)
    requires forall o :: o in orders && KeyOf(o).Text? && ParseId(KeyOf(o).text).Some? ==> LowerCase(KeyOf(o).text)
    ensures Filtered(IndexedPlan(orders, r), r) == Filtered(GroupedPlan(orders), r)
  {
    forall c | c in Candidates(orders, r) ensures AgreesOn(orders, r, c) {
      var w :| w in orders && CheckoutOf(w) == c;
      forall o | o in orders ensures !Stray(o, c) {
        if Stray(o, c) { LowerCaseIsCanonical(c.purchase.text); }
      }
    }
    PlansAgreeExactly(orders, r);
  }

  predicate HasLetter(id: ObjectId) { exists k :: 0 <= k < 24 && id[k] >= 10 }

  /** The identifier with upper-case digits. */
  function UpperCase(id: ObjectId): string { seq(24, k requires 0 <= k < 24 => "0123456789ABCDEF"[id[k]]) }

  /** Another spelling of an identifier, which the lookup decodes. */
  predicate Misspells(text: string, id: ObjectId) { ParseId(text) == Some(id) && text != PrintId(id) }

  /** Just the identifiers with a letter have one. */
  lemma UpperCaseMisspells(id: ObjectId)
    ensures ParseId(UpperCase(id)) == Some(id)
    ensures Misspells(UpperCase(id), id) <==> HasLetter(id)
    ensures (exists text :: Misspells(text, id)) <==> HasLetter(id)
  {
    var upper := UpperCase(id);
    forall k | 0 <= k < 24
      ensures HexValue(upper[k]) == Some(id[k]) && (upper[k] == HexDigit(id[k]) <==> id[k] < 10)
    {
    }
    assert ParseId(upper).value == id;
    if k :| 0 <= k < 24 && id[k] >= 10 { assert upper[k] != PrintId(id)[k]; }
    if !HasLetter(id) {
      assert upper == PrintId(id);
      forall text ensures !Misspells(text, id) { if ParseId(text) == Some(id) { OneSpelling(text, id); } }
    }
  }

  lemma OneSpelling(text: string, id: ObjectId)
    requires ParseId(text) == Some(id) && !HasLetter(id)
    ensures text == PrintId(id)
  {
    forall k | 0 <= k < 24 ensures text[k] == HexDigit(id[k]) { assert HexValue(text[k]) == Some(id[k]) && id[k] < 10; }
  }

  /** A checkout whose key misspells the identifier of another delivered order of
      the customer: in any collection that begins in the range the plans disagree. */
  lemma UpperCaseKeyDisagrees(orders: seq<Order>, single: Order, paid: Order, r: Range)
    requires single in orders && single.payment.None? && single.walletGroup.None? && single.delivered
    requires paid in orders && paid.delivered && OfCustomer(single, CheckoutOf(paid)) && InRange(paid.createdAt, r)
    requires KeyOf(paid).Text? && Misspells(KeyOf(paid).text, single.id)
    requires forall o :: o in orders ==> r.start <= o.createdAt
    ensures Filtered(IndexedPlan(orders, r), r) != Filtered(GroupedPlan(orders), r)
  {
    var c := CheckoutOf(paid);
    assert c in Candidates(orders, r) && Stray(single, c) && !Harmless(orders, single, c);
    assert Own(c)(paid) && Counts(orders, Own(c), r);
    assert !AgreesOn(orders, r, c);
    PlansAgreeExactly(orders, r);
  }

  // ---- From the agreed report to the streaks -------------------------------

  /** The calendar day in the shop's time zone, seven hours ahead of UTC. */
  function DayOf(ms: int): int { (ms + 7 * 3_600_000) / 86_400_000 }

  function PurchaseDays(report: map<Checkout, Totals>, user: nat, product: nat): set<int> {
    set c | c in report && c.user == user && c.product == product :: DayOf(report[c].purchasedAt)
  }

  /** The days on which the customer's complete checkouts of the product began. */
  ghost function WholeDays(orders: seq<Order>, r: Range, user: nat, product: nat): set<int> {
    set c | c in Checkouts(orders) && c.user == user && c.product == product
            && Reported(Whole(orders, c), r) :: DayOf(Whole(orders, c).value.purchasedAt)
  }

  ghost predicate PlansAgree(orders: seq<Order>, r: Range) {
    forall c :: c in Candidates(orders, r) ==> AgreesOn(orders, r, c)
  }

  lemma GroupedDays(orders: seq<Order>, r: Range, user: nat, product: nat)
    ensures PurchaseDays(Filtered(GroupedPlan(orders), r), user, product) == WholeDays(orders, r, user, product)
  {
  }

  lemma EitherPlansDays(orders: seq<Order>, r: Range, user: nat, product: nat)
    requires PlansAgree(orders, r)
    ensures PurchaseDays(Filtered(IndexedPlan(orders, r), r), user, product) == WholeDays(orders, r, user, product)
  {
    PlansAgreeExactly(orders, r);
    GroupedDays(orders, r, user, product);
  }

  /** Main result: where the plans agree, either of them shows the same streak: the
      pipeline's list of days is determined by the orders. */
  lemma EitherPlanSameStreak(orders: seq<Order>, r: Range, user: nat, product: nat, indexed: seq<int>,
                             grouped: seq<int>)
    requires PlansAgree(orders, r)
    requires Streaks.Lists(indexed, PurchaseDays(Filtered(IndexedPlan(orders, r), r), user, product))
    requires Streaks.Lists(grouped, PurchaseDays(Filtered(GroupedPlan(orders), r), user, product))
    ensures indexed == grouped && Streaks.Reduce(indexed) == Streaks.Reduce(grouped)
  {
    PlansAgreeExactly(orders, r);
    Streaks.ListIsUnique(indexed, grouped);
  }

  /** Main result: the streak shown for a customer and product is the longest
      run of days on which a delivered checkout of theirs began in the range,
      whichever plan ran. */
  lemma StreakOfEitherPlan(orders: seq<Order>, r: Range, user: nat, product: nat, days: seq<int>)
    requires PlansAgree(orders, r)
    requires Streaks.Lists(days, PurchaseDays(Filtered(IndexedPlan(orders, r), r), user, product))
    ensures var all := WholeDays(orders, r, user, product);
      Streaks.IsLongest(all, Streaks.Reduce(days)) && (all != {} ==> Streaks.Reduce(days).longest >= 1)
  {
    EitherPlansDays(orders, r, user, product);
    Streaks.ReduceMeans(days);
    Streaks.StreakIsLongestRun(WholeDays(orders, r, user, product), days);
  }
}
