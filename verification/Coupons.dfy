/**
 Coupon pricing and redemption.  Checkouts and admin edits run as snapshot
 transactions: each reads the collections as they were when it began, and commits
 only if nobody else has written its coupon document since.  Redemption records
 never conflict with each other, so every limit, the per-user one included,
 rests on that one document.
 */
module Coupons {
  import opened Wrappers

  type Code = string
  type UserId = nat
  type ProductId = nat

  const MAX_SAFE_INTEGER := 9007199254740991

  datatype Kind = Percent | Fixed

  datatype Coupon = Coupon(kind: Kind, value: int, minSubtotal: int, maxDiscount: Option<int>,
                           startsAt: Option<int>, endsAt: Option<int>, usageLimit: Option<int>,
                           perUserLimit: int, usageCount: int, products: seq<ProductId>, active: bool)

  datatype Redemption = Redemption(code: Code, user: UserId, product: ProductId, checkoutKey: string,
                                   quantity: nat, subtotal: nat, discount: nat, total: nat)

  datatype Store = Store(coupons: map<Code, Coupon>, redemptions: seq<Redemption>, versions: map<Code, nat>)

  datatype Request = Request(user: UserId, product: ProductId, subtotal: nat, code: Option<Code>,
                             quantity: nat, checkoutKey: string, expectedTotal: Option<nat>)

  datatype Pricing = Pricing(subtotal: nat, discount: nat, total: nat, code: Option<Code>)

  datatype CouponError =
    | Unavailable | WrongProduct | BelowMinimum | UsedUp | UsedUpByUser | TooSmall | PriceChanged

  // ---- Pricing -------------------------------------------------------------

  function UsesBy(redemptions: seq<Redemption>, code: Code, user: UserId): nat {
    if redemptions == [] then 0
    else
      var last := redemptions[|redemptions| - 1];
      UsesBy(redemptions[..|redemptions| - 1], code, user) + if last.code == code && last.user == user then 1 else 0
  }

  function Uses(redemptions: seq<Redemption>, code: Code): nat {
    if redemptions == [] then 0
    else Uses(redemptions[..|redemptions| - 1], code) + if redemptions[|redemptions| - 1].code == code then 1 else 0
  }

  predicate Open(c: Coupon, now: int) {
    c.active && (c.startsAt.Some? ==> c.startsAt.value <= now) && (c.endsAt.Some? ==> now < c.endsAt.value)
  }

  function Min(a: int, b: int): int { if a <= b then a else b }

  /** The integer discount, before the check that it is at least one. */
  function Discount(c: Coupon, subtotal: nat): int {
    var raw := if c.kind.Percent? then subtotal * c.value / 100 else c.value;
    Min(Min(subtotal, raw), if c.maxDiscount.Some? then c.maxDiscount.value else MAX_SAFE_INTEGER)
  }

  function Price(s: Store, r: Request, now: int): Result<Pricing, CouponError> {
    if r.code.None? then Ok(Pricing(r.subtotal, 0, r.subtotal, None)) else
    var code := r.code.value;
    if code !in s.coupons || !Open(s.coupons[code], now) then Err(Unavailable) else
    var c := s.coupons[code];
    if c.products != [] && r.product !in c.products then Err(WrongProduct)
    else if r.subtotal < c.minSubtotal then Err(BelowMinimum)
    else if c.usageLimit.Some? && c.usageCount >= c.usageLimit.value then Err(UsedUp)
    else if UsesBy(s.redemptions, code, r.user) >= c.perUserLimit then Err(UsedUpByUser)
    else
      var discount := Discount(c, r.subtotal);
      if discount < 1 then Err(TooSmall)
      else Ok(Pricing(r.subtotal, discount, r.subtotal - discount, Some(code)))
  }

  predicate IsSafeInteger(n: int) { -MAX_SAFE_INTEGER <= n <= MAX_SAFE_INTEGER }

  predicate AtLeast(field: Option<int>, least: int) {
    field.Some? ==> IsSafeInteger(field.value) && field.value >= least
  }

  /** `validate`; it also refuses a limit below what was already used. */
  predicate Valid(c: Coupon) {
    && IsSafeInteger(c.value) && c.value >= 1 && (c.kind.Percent? ==> c.value <= 100)
    && AtLeast(Some(c.minSubtotal), 0) && AtLeast(c.maxDiscount, 1)
    && AtLeast(c.usageLimit, 1) && AtLeast(Some(c.perUserLimit), 1)
    && (c.startsAt.Some? && c.endsAt.Some? ==> c.startsAt.value < c.endsAt.value)
    && (c.usageLimit.Some? ==> c.usageCount <= c.usageLimit.value)
  }

  /** A priced checkout pays at least nothing, saves at least one, and a
      percentage is rounded down, by less than one unit, unless a cap applies. */
  lemma PriceIsFair(s: Store, r: Request, now: int)
    requires Price(s, r, now).Ok?
    requires r.code.Some? && r.code.value in s.coupons ==> Valid(s.coupons[r.code.value])
    requires r.subtotal <= MAX_SAFE_INTEGER
    ensures var p := Price(s, r, now).value;
      && p.discount + p.total == r.subtotal
      && (r.code.None? ==> p.discount == 0)
      && (r.code.Some? ==>
            var c := s.coupons[r.code.value];
            && 1 <= p.discount <= r.subtotal
            && (c.maxDiscount.Some? ==> p.discount <= c.maxDiscount.value)
            && (c.kind.Fixed? ==> p.discount <= c.value)
            && (c.kind.Percent? ==> 100 * p.discount <= r.subtotal * c.value)
            && (c.kind.Percent? && (c.maxDiscount.Some? ==> p.discount < c.maxDiscount.value) ==>
                  r.subtotal * c.value < 100 * (p.discount + 1)))
  {
    if r.code.Some? {
      var c := s.coupons[r.code.value];
      if c.kind.Percent? { PercentFits(r.subtotal, c.value); }
    }
  }

  lemma PercentFits(subtotal: nat, value: int)
    requires 1 <= value <= 100
    ensures 0 <= subtotal * value / 100 <= subtotal
    ensures 100 * (subtotal * value / 100) <= subtotal * value < 100 * (subtotal * value / 100 + 1)
  {
  }

  /** What the bot lists for a user: every coupon still open and not used up. */
  predicate Listed(s: Store, code: Code, user: UserId, now: int) {
    && code in s.coupons && Open(s.coupons[code], now)
    && (s.coupons[code].usageLimit.Some? ==> s.coupons[code].usageCount < s.coupons[code].usageLimit.value)
    && UsesBy(s.redemptions, code, user) < s.coupons[code].perUserLimit
  }

  /** The list and the price agree: a coupon is listed exactly when some product
      and amount could still be bought with it. */
  lemma ListedMeansUsable(s: Store, code: Code, user: UserId, now: int)
    requires code in s.coupons ==> Valid(s.coupons[code])
    ensures Listed(s, code, user, now) <==>
            exists r: Request :: r.user == user && r.code == Some(code) && Price(s, r, now).Ok?
  {
    if Listed(s, code, user, now) {
      var c := s.coupons[code];
      var product := if c.products == [] then 0 else c.products[0];
      var r := Request(user, product, if c.minSubtotal >= 100 then c.minSubtotal else 100, Some(code), 1, "", None);
      assert r.subtotal * c.value >= 100;
      assert Discount(c, r.subtotal) >= 1;
      assert Price(s, r, now).Ok?;
    }
  }

  // ---- Transactions --------------------------------------------------------

  /** The fields an admin edit may set; `None` leaves a field as it is. */
  datatype Patch = Patch(kind: Option<Kind>, value: Option<int>, minSubtotal: Option<int>,
                         maxDiscount: Option<Option<int>>, startsAt: Option<Option<int>>, endsAt: Option<Option<int>>,
                         usageLimit: Option<Option<int>>, perUserLimit: Option<int>,
                         products: Option<seq<ProductId>>, active: Option<bool>)

  function Or<T>(change: Option<T>, current: T): T { if change.Some? then change.value else current }

  function Patched(c: Coupon, p: Patch): Coupon {
    Coupon(Or(p.kind, c.kind), Or(p.value, c.value), Or(p.minSubtotal, c.minSubtotal), Or(p.maxDiscount, c.maxDiscount),
           Or(p.startsAt, c.startsAt), Or(p.endsAt, c.endsAt), Or(p.usageLimit, c.usageLimit),
           Or(p.perUserLimit, c.perUserLimit), c.usageCount, Or(p.products, c.products), Or(p.active, c.active))
  }

  function WriteCoupon(s: Store, code: Code, c: Coupon): Store {
    s.(coupons := s.coupons[code := c],
       versions := s.versions[code := (if code in s.versions then s.versions[code] else 0) + 1])
  }

  function RecordOf(r: Request, p: Pricing): Redemption
    requires p.code.Some?
  {
    Redemption(p.code.value, r.user, r.product, r.checkoutKey, r.quantity, p.subtotal, p.discount, p.total)
  }

  /** Nobody wrote the coupon document since the snapshot. */
  predicate NoConflict(s: Store, snap: Store, code: Code) {
    code in s.versions && code in snap.versions && s.versions[code] == snap.versions[code]
  }

  predicate KeyUsed(s: Store, key: string) {
    exists k :: 0 <= k < |s.redemptions| && s.redemptions[k].checkoutKey == key
  }

  /** `redeem` read from one store and written to another. */
  function PriceChecked(snap: Store, r: Request, now: int): Result<Pricing, CouponError> {
    match Price(snap, r, now)
    case Err(e) => Err(e)
    case Ok(p) => if r.expectedTotal.Some? && r.expectedTotal.value != p.total then Err(PriceChanged) else Ok(p)
  }

  function Redeemed(s: Store, r: Request, p: Pricing): Store {
    if p.code.None? || p.code.value !in s.coupons then s
    else
      var c := s.coupons[p.code.value];
      var counted := WriteCoupon(s, p.code.value, c.(usageCount := c.usageCount + 1));
      counted.(redemptions := counted.redemptions + [RecordOf(r, p)])
  }

  /** What a redeeming transaction does when it commits: the usage count it
      writes was computed from its snapshot. */
  function CommitRedeem(s: Store, snap: Store, r: Request, now: int): Option<Store> {
    match PriceChecked(snap, r, now)
    case Err(_) => None
    case Ok(p) =>
      if p.code.None? then Some(s) else
      var code := p.code.value;
      if !NoConflict(s, snap, code) || KeyUsed(s, r.checkoutKey) then None
      else
        var counted := WriteCoupon(s, code, snap.coupons[code].(usageCount := snap.coupons[code].usageCount + 1));
        Some(counted.(redemptions := counted.redemptions + [RecordOf(r, p)]))
  }

  function CommitEdit(s: Store, snap: Store, code: Code, p: Patch): Option<Store> {
    if code !in snap.coupons || !Valid(Patched(snap.coupons[code], p)) || !NoConflict(s, snap, code) then None
    else Some(WriteCoupon(s, code, Patched(snap.coupons[code], p)))
  }

  function Created(s: Store, code: Code, c: Coupon): Option<Store> {
    var unused := c.(usageCount := 0);
    if code in s.coupons || !Valid(unused) then None else Some(WriteCoupon(s, code, unused))
  }

  datatype Tx = Redeeming(snap: Store, request: Request) | Editing(snap: Store, code: Code, patch: Patch)

  datatype System = System(store: Store, txs: map<nat, Tx>)

  const INITIAL := System(Store(map[], [], map[]), map[])

  datatype Action =
    | BeginRedeem(t: nat, request: Request)
    | BeginEdit(t: nat, code: Code, patch: Patch)
    | Commit(t: nat, now: int)
    | Abort(t: nat)
    | Create(newCode: Code, coupon: Coupon)

  function Written(s: System, a: Action): Option<Store> {
    match a
    case Create(code, c) => Created(s.store, code, c)
    case Commit(t, now) =>
      if t !in s.txs then None else
      (match s.txs[t]
       case Redeeming(snap, r) => CommitRedeem(s.store, snap, r, now)
       case Editing(snap, code, p) => CommitEdit(s.store, snap, code, p))
    case _ => None
  }

  function Step(s: System, a: Action): System {
    var store := match Written(s, a) case Some(w) => w case None => s.store;
    match a
    case BeginRedeem(t, r) => if t in s.txs then s else s.(txs := s.txs[t := Redeeming(s.store, r)])
    case BeginEdit(t, code, p) => if t in s.txs then s else s.(txs := s.txs[t := Editing(s.store, code, p)])
    case Commit(t, _) => System(store, s.txs - {t})
    case Abort(t) => s.(txs := s.txs - {t})
    case Create(_, _) => s.(store := store)
  }

  function Run(s: System, actions: seq<Action>): System
    decreases |actions|
  {
    if actions == [] then s else Run(Step(s, actions[0]), actions[1..])
  }

  // ---- What every transaction keeps ----------------------------------------

  predicate CouponOk(s: Store, code: Code)
    requires code in s.coupons
  {
    code in s.versions && Valid(s.coupons[code]) && s.coupons[code].usageCount == Uses(s.redemptions, code)
  }

  ghost predicate StoreOk(s: Store) {
    && (forall code :: code in s.coupons ==> CouponOk(s, code))
    && (forall code :: code !in s.coupons ==> Uses(s.redemptions, code) == 0)
    && s.versions.Keys == s.coupons.Keys
    && (forall i, j :: 0 <= i < j < |s.redemptions| ==> s.redemptions[i].checkoutKey != s.redemptions[j].checkoutKey)
    && (forall k :: 0 <= k < |s.redemptions| ==> Balanced(s.redemptions[k]))
  }

  /** A record accounts for its whole subtotal and saved something. */
  predicate Balanced(r: Redemption) { 1 <= r.discount && r.discount + r.total == r.subtotal }

  /** A snapshot can only differ on coupons written since. */
  ghost predicate Agrees(s: Store, snap: Store, code: Code) {
    && code in snap.versions ==>
      && code in s.versions && snap.versions[code] <= s.versions[code]
      && (snap.versions[code] == s.versions[code] ==>
            && code in s.coupons && code in snap.coupons && s.coupons[code] == snap.coupons[code]
            && forall user :: UsesBy(s.redemptions, code, user) == UsesBy(snap.redemptions, code, user))
  }

  ghost predicate SnapshotOk(s: Store, snap: Store) {
    snap.coupons.Keys == snap.versions.Keys && forall code :: Agrees(s, snap, code)
  }

  ghost predicate Inv(s: System) {
    StoreOk(s.store) && forall t :: t in s.txs ==> SnapshotOk(s.store, s.txs[t].snap)
  }

  lemma UsesAppend(rs: seq<Redemption>, r: Redemption, code: Code, user: UserId)
    ensures Uses(rs + [r], code) == Uses(rs, code) + if r.code == code then 1 else 0
    ensures UsesBy(rs + [r], code, user) == UsesBy(rs, code, user) + if r.code == code && r.user == user then 1 else 0
  {
  }

  /** Main result: a committed redemption is what `redeem` would have done on
      the store it commits to.  Reading a snapshot made no difference. */
  lemma CommitIsSerial(s: Store, snap: Store, r: Request, now: int)
    requires SnapshotOk(s, snap) && CommitRedeem(s, snap, r, now).Some?
    ensures r.code.Some? ==> PriceChecked(s, r, now) == PriceChecked(snap, r, now)
    ensures CommitRedeem(s, snap, r, now).value == Redeemed(s, r, PriceChecked(snap, r, now).value)
  {
    if r.code.Some? {
      var code := r.code.value;
      assert Agrees(s, snap, code);
      assert UsesBy(s.redemptions, code, r.user) == UsesBy(snap.redemptions, code, r.user);
    }
  }

  lemma RedeemKeeps(s: Store, snap: Store, r: Request, now: int)
    requires StoreOk(s) && SnapshotOk(s, snap) && CommitRedeem(s, snap, r, now).Some?
    ensures StoreOk(CommitRedeem(s, snap, r, now).value)
  {
    CommitIsSerial(s, snap, r, now);
    if r.code.None? { return; }
    var next := CommitRedeem(s, snap, r, now).value;
    var code := r.code.value;
    assert CouponOk(s, code) && Balanced(RecordOf(r, PriceChecked(snap, r, now).value));
    var record := next.redemptions[|s.redemptions|];
    forall k | k in next.coupons ensures CouponOk(next, k) {
      UsesAppend(s.redemptions, record, k, r.user);
      assert CouponOk(s, k);
    }
    forall k | k !in next.coupons ensures Uses(next.redemptions, k) == 0 {
      UsesAppend(s.redemptions, record, k, r.user);
    }
  }

  lemma EditKeeps(s: Store, snap: Store, code: Code, p: Patch)
    requires StoreOk(s) && SnapshotOk(s, snap) && CommitEdit(s, snap, code, p).Some?
    ensures StoreOk(CommitEdit(s, snap, code, p).value)
  {
    var next := CommitEdit(s, snap, code, p).value;
    assert Agrees(s, snap, code) && CouponOk(s, code);
    forall k | k in next.coupons ensures CouponOk(next, k) { assert CouponOk(s, k); }
  }

  /** A write of one coupon leaves every snapshot's other coupons in step. */
  lemma WriteAgrees(s: Store, next: Store, snap: Store, code: Code, c: Coupon)
    requires SnapshotOk(s, snap)
    requires next.coupons == WriteCoupon(s, code, c).coupons && next.versions == WriteCoupon(s, code, c).versions
    requires forall k, user :: k != code ==> UsesBy(next.redemptions, k, user) == UsesBy(s.redemptions, k, user)
    ensures SnapshotOk(next, snap)
  {
    forall k ensures Agrees(next, snap, k) { assert Agrees(s, snap, k); }
  }

  lemma StepKeeps(s: System, a: Action)
    requires Inv(s)
    ensures Inv(Step(s, a))
  {
    var next := Step(s, a);
    var written := Written(s, a);
    if written.None? {
      forall t | t in next.txs && t !in s.txs ensures SnapshotOk(next.store, next.txs[t].snap) {
        forall code ensures Agrees(s.store, s.store, code) {
          if code in s.store.coupons { assert CouponOk(s.store, code); }
        }
      }
      return;
    }
    match a
    case Create(code, c) =>
      forall k | k in next.store.coupons ensures CouponOk(next.store, k) {
        if k != code { assert CouponOk(s.store, k); }
      }
      forall t | t in next.txs ensures SnapshotOk(next.store, next.txs[t].snap) {
        assert SnapshotOk(s.store, s.txs[t].snap);
        assert Agrees(s.store, s.txs[t].snap, code);
        WriteAgrees(s.store, next.store, s.txs[t].snap, code, c.(usageCount := 0));
      }
    case Commit(t, now) =>
      CommitKeeps(s, t, now);
  }

  lemma CommitKeeps(s: System, t: nat, now: int)
    requires Inv(s) && t in s.txs && Written(s, Commit(t, now)).Some?
    ensures Inv(Step(s, Commit(t, now)))
  {
    var next := Step(s, Commit(t, now));
    var snap := s.txs[t].snap;
    match s.txs[t]
    case Redeeming(_, r) =>
      RedeemKeeps(s.store, snap, r, now);
      if r.code.Some? {
        var code := r.code.value;
        var record := next.store.redemptions[|s.store.redemptions|];
        forall k, user | k != code
          ensures UsesBy(next.store.redemptions, k, user) == UsesBy(s.store.redemptions, k, user)
        {
          UsesAppend(s.store.redemptions, record, k, user);
        }
        forall u | u in next.txs ensures SnapshotOk(next.store, next.txs[u].snap) {
          WriteAgrees(s.store, next.store, s.txs[u].snap, code, next.store.coupons[code]);
        }
      }
    case Editing(_, code, p) =>
      EditKeeps(s.store, snap, code, p);
      forall u | u in next.txs ensures SnapshotOk(next.store, next.txs[u].snap) {
        WriteAgrees(s.store, next.store, s.txs[u].snap, code, next.store.coupons[code]);
      }
  }

  lemma {:induction false} RunKeeps(s: System, actions: seq<Action>)
    requires Inv(s)
    ensures Inv(Run(s, actions))
    decreases |actions|
  {
    if actions != [] {
      StepKeeps(s, actions[0]);
      RunKeeps(Step(s, actions[0]), actions[1..]);
    }
  }

  lemma InitialOk()
    ensures Inv(INITIAL)
  {
  }

  /** Main result: in every committed state a coupon's counter is the number of
      its redemption records, never above its limit, and no checkout redeemed
      twice, whatever redemptions and edits ran at the same time. */
  lemma CountersAreExact(actions: seq<Action>, code: Code)
    requires code in Run(INITIAL, actions).store.coupons
    ensures var s := Run(INITIAL, actions).store; var c := s.coupons[code];
      && c.usageCount == Uses(s.redemptions, code)
      && (c.usageLimit.Some? ==> c.usageCount <= c.usageLimit.value)
      && (forall i, j :: 0 <= i < j < |s.redemptions| ==> s.redemptions[i].checkoutKey != s.redemptions[j].checkoutKey)
      && (forall k :: 0 <= k < |s.redemptions| ==> Balanced(s.redemptions[k]))
  {
    InitialOk();
    RunKeeps(INITIAL, actions);
    assert CouponOk(Run(INITIAL, actions).store, code);
  }

  /** Main result: whenever a commit adds a redemption, both limits in force at
      that moment still had room for it, and it was priced at the coupon's
      current terms. */
  lemma RedemptionsWithinLimits(actions: seq<Action>, t: nat, now: int)
    requires var s := Run(INITIAL, actions);
      t in s.txs && s.txs[t].Redeeming? && s.txs[t].request.code.Some? && Written(s, Commit(t, now)).Some?
    ensures var s := Run(INITIAL, actions); var r := s.txs[t].request; var code := r.code.value;
      && code in s.store.coupons
      && var c := s.store.coupons[code];
      && UsesBy(s.store.redemptions, code, r.user) < c.perUserLimit
      && (c.usageLimit.Some? ==> c.usageCount < c.usageLimit.value)
      && Price(s.store, r, now).Ok?
      && Step(s, Commit(t, now)).store == Redeemed(s.store, r, Price(s.store, r, now).value)
  {
    InitialOk();
    RunKeeps(INITIAL, actions);
    var s := Run(INITIAL, actions);
    var snap, r := s.txs[t].snap, s.txs[t].request;
    assert SnapshotOk(s.store, snap) && Agrees(s.store, snap, r.code.value);
    CommitIsSerial(s.store, snap, r, now);
  }

  /** The collections as the service updates them. */
  class CouponCollections {
    var coupons: map<Code, Coupon>
    var redemptions: seq<Redemption>
    var versions: map<Code, nat>

    function Contents(): Store
      reads this
    {
      Store(coupons, redemptions, versions)
    }

    constructor ()
      ensures Contents() == INITIAL.store
    {
      coupons, redemptions, versions := map[], [], map[];
    }

    /** `redeem` inside a transaction that read `snap`, up to its commit. */
    method Redeem(snap: Store, r: Request, now: int) returns (result: Result<Pricing, CouponError>, committed: bool)
      modifies this
      ensures result == PriceChecked(snap, r, now)
      ensures committed <==> CommitRedeem(old(Contents()), snap, r, now).Some?
      ensures Contents() == if committed then CommitRedeem(old(Contents()), snap, r, now).value else old(Contents())
    {
      var priced := Price(snap, r, now);
      if priced.Err? { return priced, false; }
      if r.expectedTotal.Some? && r.expectedTotal.value != priced.value.total { return Err(PriceChanged), false; }
      if priced.value.code.None? { return priced, true; }
      var code := priced.value.code.value;
      if !NoConflict(Contents(), snap, code) || KeyUsed(Contents(), r.checkoutKey) { return priced, false; }
      var c := snap.coupons[code];
      coupons := coupons[code := c.(usageCount := c.usageCount + 1)];
      versions := versions[code := versions[code] + 1];
      redemptions := redemptions + [RecordOf(r, priced.value)];
      result, committed := priced, true;
    }

    method Update(snap: Store, code: Code, p: Patch) returns (committed: bool)
      modifies this`coupons, this`versions
      ensures committed <==> CommitEdit(old(Contents()), snap, code, p).Some?
      ensures Contents() == if committed then CommitEdit(old(Contents()), snap, code, p).value else old(Contents())
    {
      if code !in snap.coupons || !Valid(Patched(snap.coupons[code], p)) || !NoConflict(Contents(), snap, code) {
        return false;
      }
      coupons := coupons[code := Patched(snap.coupons[code], p)];
      versions := versions[code := versions[code] + 1];
      committed := true;
    }
  }
}
