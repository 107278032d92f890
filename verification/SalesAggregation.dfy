// Seller sales aggregates (internal/analytics/service.go): the newest snapshot of every
// transaction, grouped into reporting buckets, sorted.
module SalesAggregation {
  import opened Foundations
  import opened Sorting

  datatype Status =
    | Proposed | ApprovalPending | Approved | PaymentRequired | PaymentVerified | Forwarded | Fulfilled | Failed
    | Disputed | RefundRecommended | Resolved
  datatype Finality = NoFinality | Confirmed | Finalized | FinalityFailed

  datatype Stage = Challenged | StageVerified | StageFinalized | StageFulfilled | StageFailed | StageDisputed

  // A route identifier; its text starts with its prefix, so it is never empty.
  type RouteId = id: Id | id.prefix == RouteIds witness Id(RouteIds, "")

  datatype Transaction = Transaction(
    id: Id, intent: Id, seller: Id, route: RouteId, buyer: string, amount: nat, asset: string, network: string, createdAt: Time,
    status: Status, finality: Finality, paymentReference: string, updatedAt: Time, version: nat, failureCode: string)

  // Transaction.Reconciliation
  function StageOf(status: Status, finality: Finality): Option<Stage> {
    match status
    case PaymentRequired => Some(Challenged)
    case PaymentVerified => Some(if finality == Finalized then StageFinalized else StageVerified)
    case Forwarded => Some(if finality == Finalized then StageFinalized else StageVerified)
    case Fulfilled => Some(StageFulfilled)
    case Failed => Some(StageFailed)
    case Disputed => Some(StageDisputed)
    case RefundRecommended => Some(StageDisputed)
    case Resolved => Some(StageDisputed)
    case _ => None
  }

  // Which transactions a reporting stage holds, stage by stage; the rest are not reported.
  lemma StageMembers(status: Status, finality: Finality, stage: Stage)
    ensures StageOf(status, finality) == Some(stage) <==>
            || (stage == Challenged && status == PaymentRequired)
            || (stage == StageVerified && (status == PaymentVerified || status == Forwarded) && finality != Finalized)
            || (stage == StageFinalized && (status == PaymentVerified || status == Forwarded) && finality == Finalized)
            || (stage == StageFulfilled && status == Fulfilled)
            || (stage == StageFailed && status == Failed)
            || (stage == StageDisputed && (status == Disputed || status == RefundRecommended || status == Resolved))
  {
  }

  datatype Error = SellerScope | ProjectionConflict

  // ---- the newest snapshots ----

  predicate SameImmutable(a: Transaction, b: Transaction) {
    && a.id == b.id && a.intent == b.intent && a.seller == b.seller && a.route == b.route && a.buyer == b.buyer
    && a.amount == b.amount && a.asset == b.asset && a.network == b.network && a.createdAt == b.createdAt
  }

  predicate SameFacts(a: Transaction, b: Transaction) {
    a.status == b.status && a.finality == b.finality && a.paymentReference == b.paymentReference && a.updatedAt == b.updatedAt
  }

  type Latest = map<Id, Transaction>

  // One snapshot of the loop in newestTransactions
  function Take(seller: Id, latest: Latest, t: Transaction): Result<Latest, Error> {
    if t.seller != seller then Err(SellerScope)
    else if t.id !in latest then Ok(latest[t.id := t])
    else if !SameImmutable(latest[t.id], t) then Err(ProjectionConflict)
    else if t.version > latest[t.id].version then Ok(latest[t.id := t])
    else if t.version == latest[t.id].version && !SameFacts(latest[t.id], t) then Err(ProjectionConflict)
    else Ok(latest)
  }

  function Newest(seller: Id, snapshots: seq<Transaction>): Result<Latest, Error> {
    if snapshots == [] then Ok(map[])
    else
      var before := Newest(seller, snapshots[..|snapshots| - 1]);
      if before.Err? then before else Take(seller, before.value, snapshots[|snapshots| - 1])
  }

  method NewestTransactions(seller: Id, snapshots: seq<Transaction>) returns (r: Result<Latest, Error>)
    ensures r == Newest(seller, snapshots)
  {
    var latest: Latest := map[];
    for i := 0 to |snapshots|
      invariant Newest(seller, snapshots[..i]) == Ok(latest)
    {
      var t := snapshots[i];
      assert snapshots[..i + 1][..i] == snapshots[..i];
      if t.seller != seller {
        FirstErrorStays(seller, snapshots, i + 1);
        return Err(SellerScope);
      }
      if t.id !in latest {
        latest := latest[t.id := t];
        continue;
      }
      if !SameImmutable(latest[t.id], t) {
        FirstErrorStays(seller, snapshots, i + 1);
        return Err(ProjectionConflict);
      }
      if t.version > latest[t.id].version {
        latest := latest[t.id := t];
        continue;
      }
      if t.version == latest[t.id].version && !SameFacts(latest[t.id], t) {
        FirstErrorStays(seller, snapshots, i + 1);
        return Err(ProjectionConflict);
      }
    }
    assert snapshots[..|snapshots|] == snapshots;
    return Ok(latest);
  }

  lemma {:induction false} FirstErrorStays(seller: Id, snapshots: seq<Transaction>, n: nat)
    requires n <= |snapshots| && Newest(seller, snapshots[..n]).Err?
    ensures Newest(seller, snapshots) == Newest(seller, snapshots[..n])
    decreases |snapshots|
  {
    if n < |snapshots| {
      var k := |snapshots| - 1;
      assert snapshots[..k][..n] == snapshots[..n];
      FirstErrorStays(seller, snapshots[..k], n);
    } else {
      assert snapshots[..n] == snapshots;
    }
  }

  // What the newest snapshot of every id is: one of the snapshots, of maximal version,
  // agreeing with all the others on the immutable fields, and with those of the same
  // version on the reported facts.
  ghost predicate IsNewest(snapshots: seq<Transaction>, latest: Latest) {
    && (forall t :: t in snapshots ==> t.id in latest)
    && (forall id :: id in latest ==> latest[id] in snapshots && latest[id].id == id)
    && (forall t :: t in snapshots && t.id in latest ==> Dominates(latest[t.id], t))
  }

  predicate Dominates(newest: Transaction, t: Transaction) {
    SameImmutable(newest, t) && t.version <= newest.version && (t.version == newest.version ==> SameFacts(newest, t))
  }

  lemma {:induction false} NewestIsMaximal(seller: Id, snapshots: seq<Transaction>)
    requires Newest(seller, snapshots).Ok?
    ensures IsNewest(snapshots, Newest(seller, snapshots).value)
    ensures forall t :: t in snapshots ==> t.seller == seller
  {
    if snapshots != [] {
      hide IsNewest;
      var k := |snapshots| - 1;
      var before, t := snapshots[..k], snapshots[k];
      NewestIsMaximal(seller, before);
      assert snapshots == before + [t];
      TakeKeepsNewest(seller, before, Newest(seller, before).value, t);
    }
  }

  lemma TakeKeepsNewest(seller: Id, before: seq<Transaction>, latest: Latest, t: Transaction)
    requires IsNewest(before, latest) && Take(seller, latest, t).Ok?
    ensures IsNewest(before + [t], Take(seller, latest, t).value)
  {
    var after := Take(seller, latest, t).value;
    forall s | s in before + [t] ensures s.id in after && Dominates(after[s.id], s) {
      if s in before {
        assert Dominates(latest[s.id], s);
      }
    }
  }

  // ---- buckets ----

  // A bucket per day, asset, network, route and stage; no route means all routes.
  datatype Key = Key(day: int, asset: string, network: string, route: Option<RouteId>, stage: Stage)

  datatype Bucket = Bucket(count: nat, amount: nat, lastAt: Time)

  type Buckets = map<Key, Bucket>

  function DayOf(t: Time): int { t / (24 * HOUR) }

  // A day is 24 hours.
  lemma DayMeans(t: Time, day: int)
    ensures DayOf(t) == day <==> day * (24 * HOUR) <= t < (day + 1) * (24 * HOUR)
  {
  }

  // addAggregate
  function Put(m: Buckets, key: Key, amount: nat, at: Time): Buckets {
    var bucket := if key in m then m[key] else Bucket(0, 0, at);
    m[key := Bucket(bucket.count + 1, bucket.amount + amount, if at > bucket.lastAt then at else bucket.lastAt)]
  }

  // What a transaction contributes; all of it is compared by newestTransactions.
  datatype Contribution = Contribution(
    day: int, asset: string, network: string, route: RouteId, stage: Option<Stage>, amount: nat, updatedAt: Time)

  function Contributes(t: Transaction): Contribution {
    Contribution(DayOf(t.createdAt), t.asset, t.network, t.route, StageOf(t.status, t.finality), t.amount, t.updatedAt)
  }

  function KeyFor(c: Contribution, route: Option<RouteId>): Key
    requires c.stage.Some?
  {
    Key(c.day, c.asset, c.network, route, c.stage.value)
  }

  function Add(m: Buckets, c: Contribution): Buckets {
    if c.stage.None? then m
    else Put(Put(m, KeyFor(c, None), c.amount, c.updatedAt), KeyFor(c, Some(c.route)), c.amount, c.updatedAt)
  }

  function AddAll(latest: Latest, ids: seq<Id>): Buckets
    requires forall i :: 0 <= i < |ids| ==> ids[i] in latest
  {
    if ids == [] then map[] else Add(AddAll(latest, ids[..|ids| - 1]), Contributes(latest[ids[|ids| - 1]]))
  }

  // ---- the order of iteration does not matter ----

  lemma PutsCommute(m: Buckets, k: Key, a: nat, s: Time, l: Key, b: nat, t: Time)
    ensures Put(Put(m, k, a, s), l, b, t) == Put(Put(m, l, b, t), k, a, s)
  {
  }

  lemma AddsCommute(m: Buckets, c: Contribution, d: Contribution)
    ensures Add(Add(m, c), d) == Add(Add(m, d), c)
  {
    hide Put;
    if c.stage.Some? && d.stage.Some? {
      var c0, c1, d0, d1 := KeyFor(c, None), KeyFor(c, Some(c.route)), KeyFor(d, None), KeyFor(d, Some(d.route));
      var x, s, y, t := c.amount, c.updatedAt, d.amount, d.updatedAt;
      var mc := Put(m, c0, x, s);
      PutsCommute(mc, c1, x, s, d0, y, t);
      PutsCommute(Put(mc, d0, y, t), c1, x, s, d1, y, t);
      PutsCommute(m, c0, x, s, d0, y, t);
      var md := Put(m, d0, y, t);
      PutsCommute(md, c0, x, s, d1, y, t);
    }
  }

  // Any one transaction may be added last.
  lemma {:induction false} AddLast(latest: Latest, ids: seq<Id>, i: nat)
    requires i < |ids| && forall j :: 0 <= j < |ids| ==> ids[j] in latest
    ensures AddAll(latest, ids) == Add(AddAll(latest, ids[..i] + ids[i + 1..]), Contributes(latest[ids[i]]))
  {
    hide Add, Contributes;
    var k := |ids| - 1;
    if i == k {
      assert ids[..i] + ids[i + 1..] == ids[..k];
    } else {
      AddLast(latest, ids[..k], i);
      var without := ids[..k][..i] + ids[..k][i + 1..];
      assert ids[..i] + ids[i + 1..] == without + [ids[k]];
      assert (without + [ids[k]])[..|without|] == without;
      AddsCommute(AddAll(latest, without), Contributes(latest[ids[i]]), Contributes(latest[ids[k]]));
    }
  }

  // Two maps that agree on contributions, visited in two orders, give the same buckets.
  lemma {:induction false} VisitOrderIrrelevant(a: Latest, b: Latest, ids: seq<Id>, other: seq<Id>)
    requires (forall i :: 0 <= i < |ids| ==> ids[i] in a) && (forall i :: 0 <= i < |other| ==> other[i] in b)
    requires Distinct(ids) && Distinct(other) && SameElements(ids, other)
    requires forall id :: id in a && id in b ==> Contributes(a[id]) == Contributes(b[id])
    ensures AddAll(a, ids) == AddAll(b, other)
    decreases |ids|
  {
    hide Add, Contributes;
    if ids != [] {
      var k := |ids| - 1;
      assert ids[k] in other;
      var i :| 0 <= i < |other| && other[i] == ids[k];
      var rest := other[..i] + other[i + 1..];
      RemovedSame(ids, other, i);
      AddLast(b, other, i);
      VisitOrderIrrelevant(a, b, ids[..k], rest);
    } else if other != [] {
      NeitherEmpty(other, ids);
    }
  }

  lemma NeitherEmpty(ids: seq<Id>, other: seq<Id>)
    requires ids != [] && SameElements(ids, other)
    ensures other != []
  {
    assert ids[0] in other;
  }

  lemma RemovedSame(ids: seq<Id>, other: seq<Id>, i: nat)
    requires ids != [] && i < |other| && other[i] == ids[|ids| - 1]
    requires Distinct(ids) && Distinct(other) && SameElements(ids, other)
    ensures var rest := other[..i] + other[i + 1..]; Distinct(rest) && SameElements(ids[..|ids| - 1], rest)
    ensures forall x :: x in other[..i] + other[i + 1..] ==> x in other
  {
    var k := |ids| - 1;
    var rest := other[..i] + other[i + 1..];
    assert ids == ids[..k] + [ids[k]];
    assert other == other[..i] + [other[i]] + other[i + 1..];
    forall x ensures x in ids[..k] <==> x in rest {
      assert (x in ids) == (x in other);
      assert x in rest ==> x != other[i];
    }
  }

  // ---- sorted rows ----

  function StageText(s: Stage): string {
    match s
    case Challenged => "challenged"
    case StageVerified => "verified"
    case StageFinalized => "finalized"
    case StageFulfilled => "fulfilled"
    case StageFailed => "failed"
    case StageDisputed => "disputed"
  }

  function RouteText(r: Option<RouteId>): string { if r.None? then "" else "rte_" + r.value.body }

  // Newest day first, then asset, network, route and stage.
  predicate KeyLess(a: Key, b: Key) {
    if a.day != b.day then a.day > b.day
    else if a.asset != b.asset then LexLess(a.asset, b.asset)
    else if a.network != b.network then LexLess(a.network, b.network)
    else if RouteText(a.route) != RouteText(b.route) then LexLess(RouteText(a.route), RouteText(b.route))
    else LexLess(StageText(a.stage), StageText(b.stage))
  }

  lemma TextsIdentify(a: Key, b: Key)
    ensures RouteText(a.route) == RouteText(b.route) ==> a.route == b.route
    ensures StageText(a.stage) == StageText(b.stage) ==> a.stage == b.stage
  {
    if a.route.Some? && b.route.Some? && RouteText(a.route) == RouteText(b.route) {
      assert RouteText(a.route)[4..] == a.route.value.body && RouteText(b.route)[4..] == b.route.value.body;
    }
    var x, y := StageText(a.stage), StageText(b.stage);
    assert a.stage != b.stage ==> (x[0] != y[0] || x[1] != y[1] || |x| != |y|);
  }

  lemma KeyTransitive(a: Key, b: Key, c: Key)
    requires KeyLess(a, b) && KeyLess(b, c)
    ensures KeyLess(a, c)
  {
    hide LexLess, RouteText, StageText;
    TextTransitive(a.asset, b.asset, c.asset);
    TextTransitive(a.network, b.network, c.network);
    TextTransitive(RouteText(a.route), RouteText(b.route), RouteText(c.route));
    TextTransitive(StageText(a.stage), StageText(b.stage), StageText(c.stage));
  }

  lemma TextTransitive(a: string, b: string, c: string)
    ensures LexLess(a, b) && LexLess(b, c) ==> LexLess(a, c)
    ensures LexLess(a, b) && LexLess(b, c) ==> a != c
    ensures LexLess(a, b) && LexLess(b, a) ==> false
    ensures !LexLess(a, a)
  {
    LexTotal(a, b);
    LexTotal(a, c);
    if LexLess(a, b) && LexLess(b, c) {
      LexTransitive(a, b, c);
      LexTotal(a, a);
    }
  }

  lemma KeyTotal(a: Key, b: Key)
    ensures !KeyLess(a, a)
    ensures a == b || KeyLess(a, b) || KeyLess(b, a)
  {
    hide LexLess, RouteText, StageText;
    TextsIdentify(a, b);
    LexTotal(StageText(a.stage), StageText(a.stage));
    LexTotal(a.asset, b.asset);
    LexTotal(a.network, b.network);
    LexTotal(RouteText(a.route), RouteText(b.route));
    LexTotal(StageText(a.stage), StageText(b.stage));
  }

  lemma KeyLessIsStrictOrder()
    ensures StrictOrder(KeyLess)
  {
    hide KeyLess;
    forall a: Key, b: Key, c: Key
      ensures !KeyLess(a, a) && (KeyLess(a, b) && KeyLess(b, c) ==> KeyLess(a, c)) && (a == b || KeyLess(a, b) || KeyLess(b, a))
    {
      KeyTotal(a, b);
      if KeyLess(a, b) && KeyLess(b, c) {
        KeyTransitive(a, b, c);
      }
    }
  }

  datatype Row = Row(seller: Id, key: Key, bucket: Bucket)

  function RowsOf(seller: Id, m: Buckets, keys: seq<Key>): (rows: seq<Row>)
    requires forall i :: 0 <= i < |keys| ==> keys[i] in m
    ensures |rows| == |keys| && forall i :: 0 <= i < |keys| ==> rows[i] == Row(seller, keys[i], m[keys[i]])
  {
    if keys == [] then []
    else RowsOf(seller, m, keys[..|keys| - 1]) + [Row(seller, keys[|keys| - 1], m[keys[|keys| - 1]])]
  }

  ghost function Rows(seller: Id, m: Buckets): seq<Row> {
    var keys := Sort(KeyLess, AnyOrder(m.Keys));
    SortElements(KeyLess, AnyOrder(m.Keys));
    assert forall i :: 0 <= i < |keys| ==> keys[i] in keys;
    RowsOf(seller, m, keys)
  }

  ghost function Aggregates(seller: Id, snapshots: seq<Transaction>): Result<seq<Row>, Error> {
    match Newest(seller, snapshots)
    case Err(e) => Err(e)
    case Ok(latest) => Ok(Rows(seller, AddAll(latest, AnyOrder(latest.Keys))))
  }

  // ---- the aggregation as it runs, over maps in arbitrary order ----

  method AggregateSeller(seller: Id, snapshots: seq<Transaction>) returns (r: Result<seq<Row>, Error>)
    ensures r == Aggregates(seller, snapshots)
  {
    hide Newest, Contributes, Rows;
    var newest := NewestTransactions(seller, snapshots);
    if newest.Err? {
      return Err(newest.error);
    }
    var latest := newest.value;
    var rest := latest.Keys;
    var buckets: Buckets := map[];
    ghost var visited: seq<Id> := [];
    while rest != {}
      invariant rest <= latest.Keys && Distinct(visited)
      invariant forall id :: id in visited <==> id in latest && id !in rest
      invariant forall i :: 0 <= i < |visited| ==> visited[i] in latest
      invariant buckets == AddAll(latest, visited)
      decreases |rest|
    {
      var id :| id in rest;
      rest := rest - {id};
      buckets := AddTransaction(buckets, latest[id]);
      assert (visited + [id])[..|visited|] == visited;
      visited := visited + [id];
    }
    VisitOrderIrrelevant(latest, latest, visited, AnyOrder(latest.Keys));
    var rows := SortedAggregates(seller, buckets);
    return Ok(rows);
  }

  // The body of the loop over transactions: the all-routes bucket, then the route's own.
  method AddTransaction(buckets: Buckets, t: Transaction) returns (r: Buckets)
    ensures r == Add(buckets, Contributes(t))
  {
    r := buckets;
    var stage := StageOf(t.status, t.finality);
    if stage.None? {
      return;
    }
    var routes: seq<Option<RouteId>> := [None, Some(t.route)];
    for i := 0 to 2
      invariant i == 0 ==> r == buckets
      invariant i == 1 ==> r == Put(buckets, KeyFor(Contributes(t), None), t.amount, t.updatedAt)
      invariant i == 2 ==> r == Add(buckets, Contributes(t))
    {
      var key := Key(DayOf(t.createdAt), t.asset, t.network, routes[i], stage.value);
      var bucket := if key in r then r[key] else Bucket(0, 0, t.updatedAt);
      bucket := bucket.(count := bucket.count + 1, amount := bucket.amount + t.amount);
      if t.updatedAt > bucket.lastAt {
        bucket := bucket.(lastAt := t.updatedAt);
      }
      r := r[key := bucket];
    }
  }

  method SortedAggregates(seller: Id, buckets: Buckets) returns (rows: seq<Row>)
    ensures rows == Rows(seller, buckets)
  {
    hide KeyLess;
    var rest, found := buckets.Keys, [];
    while rest != {}
      invariant rest <= buckets.Keys && Distinct(found)
      invariant forall x :: x in found <==> x in buckets.Keys && x !in rest
      decreases |rest|
    {
      var x :| x in rest;
      rest := rest - {x};
      found := found + [x];
    }
    KeyLessIsStrictOrder();
    SortForgetsOrder(KeyLess, found, AnyOrder(buckets.Keys));
    var keys := Sort(KeyLess, found);
    SortElements(KeyLess, found);
    assert forall i :: 0 <= i < |keys| ==> keys[i] in keys;
    rows := RowsOf(seller, buckets, keys);
  }

  // ---- input order and repetition do not matter ----

  lemma SameNewest(seller: Id, a: seq<Transaction>, b: seq<Transaction>)
    requires Newest(seller, a).Ok? && Newest(seller, b).Ok? && SameElements(a, b)
    ensures var x, y := Newest(seller, a).value, Newest(seller, b).value;
            x.Keys == y.Keys && forall id :: id in x && id in y ==> Contributes(x[id]) == Contributes(y[id])
  {
    hide Newest;
    NewestIsMaximal(seller, a);
    NewestIsMaximal(seller, b);
    var x, y := Newest(seller, a).value, Newest(seller, b).value;
    forall id ensures id in x <==> id in y {
      if id in x {
        assert x[id] in b;
      }
      if id in y {
        assert y[id] in a;
      }
    }
    forall id | id in x && id in y ensures Contributes(x[id]) == Contributes(y[id]) {
      assert x[id] in b && y[id] in a;
      assert Dominates(y[id], x[id]) && Dominates(x[id], y[id]);
    }
  }

  // Any two inputs with the same snapshots, in any order and any number of repetitions,
  // that both succeed give the same sorted aggregates.
  lemma AggregatesIgnoreOrder(seller: Id, a: seq<Transaction>, b: seq<Transaction>)
    requires Aggregates(seller, a).Ok? && Aggregates(seller, b).Ok? && SameElements(a, b)
    ensures Aggregates(seller, a) == Aggregates(seller, b)
  {
    hide Newest, Rows, Contributes;
    SameNewest(seller, a, b);
    var x, y := Newest(seller, a).value, Newest(seller, b).value;
    VisitOrderIrrelevant(x, y, AnyOrder(x.Keys), AnyOrder(y.Keys));
  }

  // Whether an input succeeds does depend on its order: an older conflict goes unseen
  // behind a newer version.
  lemma SuccessDependsOnOrder(seller: Id, t: Transaction)
    requires t.seller == seller && t.version == 1
    ensures var other := t.(paymentReference := t.paymentReference + "x"); var newer := t.(version := 2);
            && SameElements([newer, t, other], [t, other, newer])
            && Aggregates(seller, [newer, t, other]).Ok? && Aggregates(seller, [t, other, newer]) == Err(ProjectionConflict)
  {
    hide Rows, AddAll;
    var other, newer := t.(paymentReference := t.paymentReference + "x"), t.(version := 2);
    assert |other.paymentReference| == |t.paymentReference| + 1;
    assert [newer, t, other][..2] == [newer, t] && [newer, t][..1] == [newer] && [newer][..0] == [];
    assert Newest(seller, [newer]) == Ok(map[t.id := newer]);
    assert Newest(seller, [newer, t]) == Ok(map[t.id := newer]);
    assert [t, other, newer][..2] == [t, other] && [t, other][..1] == [t] && [t][..0] == [];
    assert Newest(seller, [t]) == Ok(map[t.id := t]);
    assert Newest(seller, [t, other]) == Err(ProjectionConflict);
  }

  // All snapshots are the seller's, those of one id agree on the immutable fields, and
  // those of one id and version on the reported facts.
  ghost predicate Consistent(seller: Id, snapshots: seq<Transaction>) {
    && (forall t :: t in snapshots ==> t.seller == seller)
    && (forall s, t :: s in snapshots && t in snapshots ==> Compatible(s, t))
  }

  predicate Compatible(s: Transaction, t: Transaction) {
    s.id == t.id ==> SameImmutable(s, t) && (s.version == t.version ==> SameFacts(s, t))
  }

  lemma {:induction false} ConsistentSnapshotsSucceed(seller: Id, snapshots: seq<Transaction>)
    requires Consistent(seller, snapshots)
    ensures Newest(seller, snapshots).Ok?
  {
    if snapshots != [] {
      var k := |snapshots| - 1;
      var before, t := snapshots[..k], snapshots[k];
      assert snapshots == before + [t];
      ConsistentSnapshotsSucceed(seller, before);
      NewestIsMaximal(seller, before);
      var latest := Newest(seller, before).value;
      if t.id in latest {
        assert latest[t.id] in snapshots && t in snapshots;
        assert Compatible(latest[t.id], t);
      }
    }
  }

  // Two snapshots that disagree, read first, are refused whatever follows.
  lemma ConflictFirstFails(seller: Id, s: Transaction, t: Transaction, rest: seq<Transaction>)
    requires s.seller == seller && t.seller == seller && !Compatible(s, t)
    ensures Newest(seller, [s, t] + rest) == Err(ProjectionConflict)
  {
    var all := [s, t] + rest;
    var pair := [s, t];
    assert all[..2] == pair && pair[..1] == [s] && [s][..0] == [];
    assert Newest(seller, [s]) == Ok(map[s.id := s]);
    assert Newest(seller, pair) == Take(seller, map[s.id := s], t);
    FirstErrorStays(seller, all, 2);
  }

  // The exact condition: the snapshots aggregate in every order and repetition exactly
  // when they are consistent.
  lemma SucceedsInEveryOrderIff(seller: Id, a: seq<Transaction>)
    ensures (forall b :: SameElements(a, b) ==> Aggregates(seller, b).Ok?) <==> Consistent(seller, a)
  {
    hide Newest, Rows, AddAll, Compatible;
    if Consistent(seller, a) {
      forall b | SameElements(a, b) ensures Aggregates(seller, b).Ok? {
        ConsistentSnapshotsSucceed(seller, b);
      }
    }
    if forall b :: SameElements(a, b) ==> Aggregates(seller, b).Ok? {
      assert SameElements(a, a);
      NewestIsMaximal(seller, a);
      forall s, t | s in a && t in a ensures Compatible(s, t) {
        assert SameElements(a, [s, t] + a);
        if !Compatible(s, t) {
          ConflictFirstFails(seller, s, t, a);
        }
      }
    }
  }

  // ---- conservation ----

  // The totals of some routes' buckets beside an all-routes key.
  datatype Total = Total(count: nat, amount: nat)

  function RouteKey(base: Key, route: RouteId): Key { base.(route := Some(route)) }

  function Routes(m: Buckets, base: Key): set<RouteId> {
    set k | k in m && k.route.Some? && RouteKey(base, k.route.value) == k :: k.route.value
  }

  ghost function TotalOver(m: Buckets, base: Key, routes: set<RouteId>): Total
    requires forall r :: r in routes ==> RouteKey(base, r) in m
  {
    if routes == {} then Total(0, 0)
    else
      var r :| r in routes;
      var rest := TotalOver(m, base, routes - {r});
      Total(rest.count + m[RouteKey(base, r)].count, rest.amount + m[RouteKey(base, r)].amount)
  }

  lemma {:induction false} TotalSplit(m: Buckets, base: Key, routes: set<RouteId>, r: RouteId)
    requires r in routes && forall x :: x in routes ==> RouteKey(base, x) in m
    ensures var rest := TotalOver(m, base, routes - {r});
            TotalOver(m, base, routes) ==
              Total(rest.count + m[RouteKey(base, r)].count, rest.amount + m[RouteKey(base, r)].amount)
    decreases routes
  {
    var x :| x in routes && TotalOver(m, base, routes) ==
      Total(TotalOver(m, base, routes - {x}).count + m[RouteKey(base, x)].count,
            TotalOver(m, base, routes - {x}).amount + m[RouteKey(base, x)].amount);
    if x != r {
      TotalSplit(m, base, routes - {x}, r);
      TotalSplit(m, base, routes - {r}, x);
      assert routes - {x} - {r} == routes - {r} - {x};
    }
  }

  lemma {:induction false} TotalFrame(m: Buckets, n: Buckets, base: Key, routes: set<RouteId>)
    requires forall r :: r in routes ==> RouteKey(base, r) in m && RouteKey(base, r) in n && m[RouteKey(base, r)] == n[RouteKey(base, r)]
    ensures TotalOver(m, base, routes) == TotalOver(n, base, routes)
    decreases routes
  {
    if routes != {} {
      var r :| r in routes;
      TotalFrame(m, n, base, routes - {r});
      TotalSplit(m, base, routes, r);
      TotalSplit(n, base, routes, r);
    }
  }

  // Beside every all-routes bucket the route buckets add up to it, and neither kind
  // exists without the other.
  ghost predicate BalancedAt(m: Buckets, base: Key) {
    && (base in m <==> Routes(m, base) != {})
    && (base in m ==> Total(m[base].count, m[base].amount) == TotalOver(m, base, Routes(m, base)))
  }

  lemma AddKeepsBalance(m: Buckets, c: Contribution, base: Key)
    requires BalancedAt(m, base) && base.route.None?
    ensures BalancedAt(Add(m, c), base)
  {
    var n := Add(m, c);
    if c.stage.Some? && KeyFor(c, None) == base {
      var r := c.route;
      var key := RouteKey(base, r);
      assert key == KeyFor(c, Some(r));
      assert Routes(n, base) == Routes(m, base) + {r} by {
        RoutesAfter(m, c, base);
      }
      TotalSplit(n, base, Routes(n, base), r);
      if r in Routes(m, base) {
        TotalSplit(m, base, Routes(m, base), r);
        assert Routes(n, base) - {r} == Routes(m, base) - {r};
      } else {
        assert key !in m;
        assert Routes(n, base) - {r} == Routes(m, base);
      }
      TotalFrame(m, n, base, Routes(n, base) - {r});
    } else {
      assert Routes(n, base) == Routes(m, base) by {
        RoutesAfter(m, c, base);
      }
      TotalFrame(m, n, base, Routes(m, base));
    }
  }

  lemma RoutesAfter(m: Buckets, c: Contribution, base: Key)
    requires base.route.None?
    ensures Routes(Add(m, c), base) ==
            Routes(m, base) + if c.stage.Some? && KeyFor(c, None) == base then {c.route} else {}
  {
    var n := Add(m, c);
    forall r: RouteId ensures r in Routes(n, base) <==> RouteKey(base, r) in n {
    }
    forall r: RouteId ensures r in Routes(m, base) <==> RouteKey(base, r) in m {
    }
  }

  // In every result the route buckets of a day, asset, network and stage sum, in count
  // and in amount, to its all-routes bucket.
  lemma {:induction false} RoutesSumToAllRoutes(latest: Latest, ids: seq<Id>, base: Key)
    requires base.route.None? && forall i :: 0 <= i < |ids| ==> ids[i] in latest
    ensures BalancedAt(AddAll(latest, ids), base)
  {
    hide BalancedAt, Add;
    if ids != [] {
      var k := |ids| - 1;
      RoutesSumToAllRoutes(latest, ids[..k], base);
      AddKeepsBalance(AddAll(latest, ids[..k]), Contributes(latest[ids[k]]), base);
    } else {
      EmptyBalanced(base);
    }
  }

  lemma EmptyBalanced(base: Key)
    ensures BalancedAt(map[], base)
  {
    var none: Buckets := map[];
    assert Routes(none, base) == {};
  }

  // ---- what a bucket holds ----

  predicate Hits(t: Transaction, key: Key) {
    && StageOf(t.status, t.finality) == Some(key.stage)
    && DayOf(t.createdAt) == key.day && t.asset == key.asset && t.network == key.network
    && (key.route.Some? ==> key.route.value == t.route)
  }

  function Contributors(latest: Latest, ids: seq<Id>, key: Key): set<Id>
    requires forall i :: 0 <= i < |ids| ==> ids[i] in latest
  {
    set i | 0 <= i < |ids| && Hits(latest[ids[i]], key) :: ids[i]
  }

  ghost function AmountOf(latest: Latest, ids: set<Id>): nat
    requires ids <= latest.Keys
  {
    if ids == {} then 0
    else
      var id :| id in ids;
      latest[id].amount + AmountOf(latest, ids - {id})
  }

  lemma {:induction false} AmountSplit(latest: Latest, ids: set<Id>, id: Id)
    requires ids <= latest.Keys && id in ids
    ensures AmountOf(latest, ids) == latest[id].amount + AmountOf(latest, ids - {id})
    decreases ids
  {
    var x :| x in ids && AmountOf(latest, ids) == latest[x].amount + AmountOf(latest, ids - {x});
    if x != id {
      AmountSplit(latest, ids - {x}, id);
      AmountSplit(latest, ids - {id}, x);
      assert ids - {x} - {id} == ids - {id} - {x};
    }
  }

  // A bucket exists exactly when some transaction falls into it, and holds their number,
  // the sum of their amounts and the latest of their update times.
  ghost predicate Reports(latest: Latest, ids: set<Id>, m: Buckets, key: Key)
    requires ids <= latest.Keys
  {
    && (key in m <==> ids != {})
    && (key in m ==>
          && m[key].count == |ids| && m[key].amount == AmountOf(latest, ids)
          && (exists id :: id in ids && latest[id].updatedAt == m[key].lastAt)
          && (forall id :: id in ids ==> latest[id].updatedAt <= m[key].lastAt))
  }

  lemma {:induction false} BucketsReport(latest: Latest, ids: seq<Id>, key: Key)
    requires Distinct(ids) && forall i :: 0 <= i < |ids| ==> ids[i] in latest
    ensures Reports(latest, Contributors(latest, ids, key), AddAll(latest, ids), key)
  {
    if ids != [] {
      hide Reports;
      var k := |ids| - 1;
      BucketsReport(latest, ids[..k], key);
      var before, id := Contributors(latest, ids[..k], key), ids[k];
      assert id !in before;
      ContributorsAfter(latest, ids, key);
      AddReports(latest, before, AddAll(latest, ids[..k]), key, id);
    }
  }

  lemma ContributorsAfter(latest: Latest, ids: seq<Id>, key: Key)
    requires ids != [] && forall i :: 0 <= i < |ids| ==> ids[i] in latest
    ensures var k := |ids| - 1;
            Contributors(latest, ids, key) ==
              Contributors(latest, ids[..k], key) + if Hits(latest[ids[k]], key) then {ids[k]} else {}
  {
    hide Hits;
    var k := |ids| - 1;
    assert forall i :: 0 <= i < k ==> ids[..k][i] == ids[i];
    forall x | x in Contributors(latest, ids[..k], key) ensures x in Contributors(latest, ids, key) {
      var i :| 0 <= i < k && Hits(latest[ids[..k][i]], key) && ids[..k][i] == x;
      assert ids[i] == x;
    }
    forall x | x in Contributors(latest, ids, key) && x != ids[k] ensures x in Contributors(latest, ids[..k], key) {
      var i :| 0 <= i < |ids| && Hits(latest[ids[i]], key) && ids[i] == x;
      assert ids[..k][i] == x;
    }
  }

  // The one bucket a contribution changes, as seen from a key.
  lemma AddAt(m: Buckets, t: Transaction, key: Key)
    ensures var n := Add(m, Contributes(t));
            if Hits(t, key) then key in n && n[key] == Put(m, key, t.amount, t.updatedAt)[key]
            else (key in n <==> key in m) && (key in m ==> n[key] == m[key])
  {
    var c := Contributes(t);
    if c.stage.Some? {
      assert Hits(t, key) <==> key == KeyFor(c, None) || key == KeyFor(c, Some(c.route));
    }
  }

  lemma AddReports(latest: Latest, before: set<Id>, m: Buckets, key: Key, id: Id)
    requires before <= latest.Keys && id in latest && id !in before && Reports(latest, before, m, key)
    ensures var after := before + if Hits(latest[id], key) then {id} else {};
            Reports(latest, after, Add(m, Contributes(latest[id])), key)
  {
    hide Hits, Add, Contributes, AmountOf;
    var t := latest[id];
    var n := Add(m, Contributes(t));
    AddAt(m, t, key);
    if Hits(t, key) {
      HitReports(latest, before, m, n, key, id);
    } else {
      assert before + {} == before;
    }
  }

  lemma HitReports(latest: Latest, before: set<Id>, m: Buckets, n: Buckets, key: Key, id: Id)
    requires before <= latest.Keys && id in latest && id !in before && Reports(latest, before, m, key)
    requires key in n && n[key] == Put(m, key, latest[id].amount, latest[id].updatedAt)[key]
    ensures Reports(latest, before + {id}, n, key)
  {
    hide AmountOf;
    var t, after := latest[id], before + {id};
    assert after - {id} == before;
    AmountSplit(latest, after, id);
    if key in m {
      var newest :| newest in before && latest[newest].updatedAt == m[key].lastAt;
      assert newest in after && id in after;
      assert n[key].lastAt == latest[newest].updatedAt || n[key].lastAt == t.updatedAt;
    } else {
      EmptyAmount(latest);
      assert id in after && n[key].lastAt == t.updatedAt;
    }
  }

  lemma EmptyAmount(latest: Latest)
    ensures AmountOf(latest, {}) == 0
  {
  }

  // ---- the returned rows ----

  function KeysOf(rows: seq<Row>): (keys: seq<Key>)
    ensures |keys| == |rows| && forall i :: 0 <= i < |rows| ==> keys[i] == rows[i].key
  {
    seq(|rows|, i requires 0 <= i < |rows| => rows[i].key)
  }

  // The rows are the buckets, each once, in ascending order of their keys.
  lemma RowsList(seller: Id, m: Buckets)
    ensures var rows := Rows(seller, m);
            && Ascending(KeyLess, KeysOf(rows)) && Distinct(KeysOf(rows))
            && (forall key :: key in KeysOf(rows) <==> key in m)
            && (forall i :: 0 <= i < |rows| ==> rows[i].key in m && rows[i] == Row(seller, rows[i].key, m[rows[i].key]))
  {
    hide KeyLess;
    var rows := Rows(seller, m);
    var keys := Sort(KeyLess, AnyOrder(m.Keys));
    KeyLessIsStrictOrder();
    SortAscends(KeyLess, AnyOrder(m.Keys));
    assert forall i :: 0 <= i < |keys| ==> keys[i] in keys;
    assert KeysOf(rows) == keys;
  }

  // The sums of the route rows that belong to an all-routes key.
  function RouteRows(rows: seq<Row>, base: Key): Total {
    if rows == [] then Total(0, 0)
    else
      var rest, last := RouteRows(rows[..|rows| - 1], base), rows[|rows| - 1];
      if last.key.route.Some? && last.key == RouteKey(base, last.key.route.value)
      then Total(rest.count + last.bucket.count, rest.amount + last.bucket.amount) else rest
  }

  function RoutesIn(rows: seq<Row>, base: Key): set<RouteId> {
    set i | 0 <= i < |rows| && rows[i].key.route.Some? && rows[i].key == RouteKey(base, rows[i].key.route.value)
      :: rows[i].key.route.value
  }

  lemma {:induction false} RouteRowsTotal(rows: seq<Row>, m: Buckets, base: Key)
    requires Distinct(KeysOf(rows))
    requires forall i :: 0 <= i < |rows| ==> rows[i].key in m && rows[i].bucket == m[rows[i].key]
    ensures RouteRows(rows, base) == TotalOver(m, base, RoutesIn(rows, base))
  {
    hide TotalOver;
    if rows != [] {
      var k := |rows| - 1;
      var before, last := rows[..k], rows[k];
      assert KeysOf(before) == KeysOf(rows)[..k];
      RouteRowsTotal(before, m, base);
      RoutesInAfter(rows, base);
      if last.key.route.Some? && last.key == RouteKey(base, last.key.route.value) {
        var r := last.key.route.value;
        assert r !in RoutesIn(before, base) by {
          assert forall i :: 0 <= i < k ==> KeysOf(rows)[i] != KeysOf(rows)[k];
        }
        assert RoutesIn(rows, base) - {r} == RoutesIn(before, base);
        TotalSplit(m, base, RoutesIn(rows, base), r);
      } else {
        assert RoutesIn(rows, base) == RoutesIn(before, base);
      }
    } else {
      assert RoutesIn(rows, base) == {};
      NoRoutesNoTotal(m, base);
    }
  }

  lemma RoutesInAfter(rows: seq<Row>, base: Key)
    requires rows != []
    ensures var k := |rows| - 1; var last := rows[k];
            RoutesIn(rows, base) == RoutesIn(rows[..k], base) +
              if last.key.route.Some? && last.key == RouteKey(base, last.key.route.value) then {last.key.route.value} else {}
  {
    var k := |rows| - 1;
    forall r | r in RoutesIn(rows[..k], base) ensures r in RoutesIn(rows, base) {
      var i :| 0 <= i < k && rows[..k][i].key.route.Some? && rows[..k][i].key == RouteKey(base, rows[..k][i].key.route.value)
               && rows[..k][i].key.route.value == r;
      assert rows[i].key.route.value == r;
    }
    forall r | r in RoutesIn(rows, base) && rows[k].key != RouteKey(base, r) ensures r in RoutesIn(rows[..k], base) {
      var i :| 0 <= i < |rows| && rows[i].key.route.Some? && rows[i].key == RouteKey(base, rows[i].key.route.value)
               && rows[i].key.route.value == r;
      assert rows[..k][i].key.route.value == r;
    }
  }

  // The newest snapshots that fall into a bucket.
  function Reported(latest: Latest, key: Key): set<Id> { set id | id in latest && Hits(latest[id], key) }

  // What AggregateSeller returns: rows in strictly ascending key order; a row for exactly
  // the keys that some newest snapshot hits, with their number, summed amount and latest
  // update; and for every all-routes row the route rows of its day, asset, network and
  // stage sum to it in count and amount.
  lemma AggregateRows(seller: Id, snapshots: seq<Transaction>, rows: seq<Row>, key: Key)
    requires Aggregates(seller, snapshots) == Ok(rows)
    ensures Newest(seller, snapshots).Ok?
    ensures var latest := Newest(seller, snapshots).value; var ids := Reported(latest, key);
            && Ascending(KeyLess, KeysOf(rows))
            && (key in KeysOf(rows) <==> ids != {})
            && (forall i :: 0 <= i < |rows| && rows[i].key == key ==>
                  && rows[i].seller == seller && rows[i].bucket.count == |ids| && rows[i].bucket.amount == AmountOf(latest, ids)
                  && (exists id :: id in ids && latest[id].updatedAt == rows[i].bucket.lastAt)
                  && (forall id :: id in ids ==> latest[id].updatedAt <= rows[i].bucket.lastAt))
            && (forall i :: 0 <= i < |rows| && rows[i].key == key && key.route.None? ==>
                  RouteRows(rows, key) == Total(rows[i].bucket.count, rows[i].bucket.amount))
            && (key.route.None? && RouteRows(rows, key) != Total(0, 0) ==> key in KeysOf(rows))
  {
    hide Newest, Rows, Hits, KeyLess, Add, AmountOf, TotalOver, RouteRows;
    var latest := Newest(seller, snapshots).value;
    var ids := AnyOrder(latest.Keys);
    var m := AddAll(latest, ids);
    RowsList(seller, m);
    BucketsReport(latest, ids, key);
    AllReported(latest, ids, key);
    hide Contributors, AddAll;
    if key.route.None? {
      RoutesSumToAllRoutes(latest, ids, key);
      RouteRowsTotal(rows, m, key);
      RoutesListed(rows, m, key);
      NoRoutesNoTotal(m, key);
    }
  }

  lemma NoRoutesNoTotal(m: Buckets, base: Key)
    ensures TotalOver(m, base, {}) == Total(0, 0)
  {
  }

  lemma AllReported(latest: Latest, ids: seq<Id>, key: Key)
    requires forall id :: id in ids <==> id in latest
    requires forall i :: 0 <= i < |ids| ==> ids[i] in latest
    ensures Contributors(latest, ids, key) == Reported(latest, key)
  {
    hide Hits;
  }

  lemma RoutesListed(rows: seq<Row>, m: Buckets, base: Key)
    requires (forall key :: key in KeysOf(rows) <==> key in m)
    ensures RoutesIn(rows, base) == Routes(m, base)
  {
    forall r | r in Routes(m, base) ensures r in RoutesIn(rows, base) {
      assert RouteKey(base, r) in KeysOf(rows);
      var i :| 0 <= i < |rows| && KeysOf(rows)[i] == RouteKey(base, r);
      assert rows[i].key == RouteKey(base, r);
    }
    forall r | r in RoutesIn(rows, base) ensures r in Routes(m, base) {
      var i :| 0 <= i < |rows| && rows[i].key.route.Some? && rows[i].key == RouteKey(base, rows[i].key.route.value)
               && rows[i].key.route.value == r;
      assert KeysOf(rows)[i] in KeysOf(rows);
    }
  }
}
