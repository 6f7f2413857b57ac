/** The mini-app's database of contractors, orders, the order/contractor association, stages,
    files and properties, and the record operations the CRM and the mini-app perform on it.
    Each table is a sequence of rows in insertion order (the order SQLite returns them without an
    ORDER BY), keyed tables are maps, and each autoincrement table keeps its next id. Timestamps
    are integers and the current time is a parameter. */
module MiniappStore {
  import opened Common
  import opened Sorting

  datatype DisplayMode = Hours | Sums

  datatype Contractor = Contractor(tgId: int, advanceAmount: int, contactInfo: Option<string>, paymentInfo: Option<string>)

  datatype Order = Order(
    orderId: string,
    chatLink: Option<string>,
    tzText: Option<string>,
    termsText: Option<string>,
    stagesDisplayMode: DisplayMode,
    stagesReadonly: bool)

  /** A row of the order/contractor association table. */
  datatype Link = Link(id: int, orderId: string, contractorId: int)

  datatype Stage = Stage(
    id: int,
    orderId: string,
    contractorId: int,
    date: int,
    hours: Option<int>,
    amount: Option<int>,
    comment: Option<string>)

  datatype OrderFile = OrderFile(id: int, orderId: string, name: Option<string>, url: string)

  datatype Property = Property(
    id: int,
    orderId: string,
    contractorId: Option<int>,
    name: string,
    quantity: int,
    comment: Option<string>)

  /** The CRM's order payload. */
  datatype StageIn = StageIn(date: Option<int>, hours: Option<int>, amount: Option<int>, comment: Option<string>, contractorId: Option<int>)
  datatype FileIn = FileIn(name: Option<string>, url: string)
  datatype PropertyIn = PropertyIn(name: string, quantity: int, comment: Option<string>, contractorId: Option<int>)
  datatype OrderUpsert = OrderUpsert(
    orderId: string,
    chatLink: Option<string>,
    tzText: Option<string>,
    termsText: Option<string>,
    contractors: seq<int>,
    stagesDisplayMode: DisplayMode,
    stagesReadonly: bool,
    stages: seq<StageIn>,
    files: seq<FileIn>,
    properties: seq<PropertyIn>)

  /** A partial update of a contractor: `None` leaves the field as it is. */
  datatype ContractorUpdate = ContractorUpdate(advanceAmount: Option<int>, contactInfo: Option<string>, paymentInfo: Option<string>)

  /** All tables at one moment. */
  datatype Db = Db(
    contractors: map<int, Contractor>,
    orders: map<string, Order>,
    links: seq<Link>,
    stages: seq<Stage>,
    files: seq<OrderFile>,
    properties: seq<Property>,
    nextLinkId: int,
    nextStageId: int,
    nextFileId: int,
    nextPropertyId: int)

  /** Every keyed record carries the key it is stored under. */
  predicate WellKeyed(db: Db) {
    (forall k :: k in db.contractors ==> db.contractors[k].tgId == k) &&
    (forall k :: k in db.orders ==> db.orders[k].orderId == k)
  }

  // ---------------------------------------------------------------------------------------
  // Contractors

  /** A contractor as first created: advance 0, no contact or payment details. */
  function NewContractor(tgId: int): Contractor {
    Contractor(tgId, 0, None, None)
  }

  /** The contractors after `get_or_create_contractor(tgId)`. */
  function Ensure(contractors: map<int, Contractor>, tgId: int): map<int, Contractor> {
    if tgId in contractors then contractors else contractors[tgId := NewContractor(tgId)]
  }

  /** An existing contractor is returned unchanged; otherwise exactly one contractor, with that
      id and the defaults, is added; every other contractor is left alone. */
  lemma EnsureEffect(contractors: map<int, Contractor>, tgId: int)
    ensures var r := Ensure(contractors, tgId);
      r.Keys == contractors.Keys + {tgId} &&
      r[tgId] == (if tgId in contractors then contractors[tgId] else NewContractor(tgId)) &&
      (forall k :: k in contractors ==> r[k] == contractors[k])
  {
  }

  /** Getting or creating twice is getting or creating once. */
  lemma EnsureIdempotent(contractors: map<int, Contractor>, tgId: int)
    ensures Ensure(Ensure(contractors, tgId), tgId) == Ensure(contractors, tgId)
  {
  }

  /** `get_or_create_contractor` for each id in turn. */
  function EnsureAll(contractors: map<int, Contractor>, ids: seq<int>): map<int, Contractor>
    decreases |ids|
  {
    if ids == [] then contractors else Ensure(EnsureAll(contractors, ids[..|ids| - 1]), ids[|ids| - 1])
  }

  lemma {:induction false} EnsureAllEffect(contractors: map<int, Contractor>, ids: seq<int>)
    ensures var r := EnsureAll(contractors, ids);
      (forall k :: k in r <==> k in contractors || k in ids) &&
      (forall k :: k in contractors ==> r[k] == contractors[k]) &&
      (forall k :: k !in contractors && k in ids ==> r[k] == NewContractor(k))
    decreases |ids|
  {
    if ids != [] {
      var pre := ids[..|ids| - 1];
      EnsureAllEffect(contractors, pre);
      assert ids == pre + [ids[|ids| - 1]];
    }
  }

  lemma EnsureAllSnoc(contractors: map<int, Contractor>, ids: seq<int>, id: int)
    ensures EnsureAll(contractors, ids + [id]) == Ensure(EnsureAll(contractors, ids), id)
  {
    assert (ids + [id])[..|ids|] == ids;
  }

  /** A contractor's fields after a partial update. */
  function Patch(c: Contractor, u: ContractorUpdate): Contractor {
    c.(advanceAmount := if u.advanceAmount.Some? then u.advanceAmount.value else c.advanceAmount,
       contactInfo := if u.contactInfo.Some? then u.contactInfo else c.contactInfo,
       paymentInfo := if u.paymentInfo.Some? then u.paymentInfo else c.paymentInfo)
  }

  /** A field whose update is `None` keeps its value, one whose update is given takes it, and
      the id never changes; applying the same update again changes nothing more. */
  lemma PatchOnlyGivenFields(c: Contractor, u: ContractorUpdate)
    ensures var r := Patch(c, u);
      r.tgId == c.tgId &&
      r.advanceAmount == (if u.advanceAmount.None? then c.advanceAmount else u.advanceAmount.value) &&
      r.contactInfo == (if u.contactInfo.None? then c.contactInfo else u.contactInfo) &&
      r.paymentInfo == (if u.paymentInfo.None? then c.paymentInfo else u.paymentInfo) &&
      Patch(r, u) == r
  {
  }

  // ---------------------------------------------------------------------------------------
  // Contractor ids of an order

  /** `list(dict.fromkeys(ids))`: each id at its first occurrence, in order. */
  function Dedup(ids: seq<int>): (r: seq<int>)
    ensures forall x :: x in r <==> x in ids
    ensures forall i, j :: 0 <= i < j < |r| ==> r[i] != r[j]
    decreases |ids|
  {
    if ids == [] then []
    else
      var pre := ids[..|ids| - 1];
      var last := ids[|ids| - 1];
      assert ids == pre + [last];
      if last in pre then Dedup(pre) else Dedup(pre) + [last]
  }

  /** The position of the first occurrence of `x`. */
  function FirstIndex(ids: seq<int>, x: int): (k: nat)
    requires x in ids
    ensures k < |ids| && ids[k] == x && forall j :: 0 <= j < k ==> ids[j] != x
  {
    if ids[0] == x then 0 else 1 + FirstIndex(ids[1..], x)
  }

  lemma {:induction false} FirstIndexOfPrefix(ids: seq<int>, n: nat, x: int)
    requires n <= |ids| && x in ids[..n]
    ensures FirstIndex(ids, x) == FirstIndex(ids[..n], x)
  {
    var k := FirstIndex(ids[..n], x);
    assert ids[k] == x;
  }

  /** The deduplicated ids keep the order of their first occurrences, and the first id stays
      first. */
  lemma {:induction false} DedupKeepsFirstOccurrenceOrder(ids: seq<int>)
    ensures ids != [] ==> Dedup(ids) != [] && Dedup(ids)[0] == ids[0]
    ensures var r := Dedup(ids);
      forall i, j :: 0 <= i < j < |r| ==> FirstIndex(ids, r[i]) < FirstIndex(ids, r[j])
    decreases |ids|
  {
    if ids != [] {
      var pre := ids[..|ids| - 1];
      var last := ids[|ids| - 1];
      DedupKeepsFirstOccurrenceOrder(pre);
      var d := Dedup(pre);
      var r := Dedup(ids);
      assert ids == pre + [last];
      if pre != [] {
        assert pre[0] == ids[0];
      } else {
        assert r == [last];
      }
      forall i, j | 0 <= i < j < |r| ensures FirstIndex(ids, r[i]) < FirstIndex(ids, r[j]) {
        assert r[i] == d[i] && r[i] in pre;
        FirstIndexOfPrefix(ids, |pre|, r[i]);
        if j < |d| {
          assert r[j] == d[j] && r[j] in pre;
          FirstIndexOfPrefix(ids, |pre|, r[j]);
        } else {
          assert r[j] == last && last !in pre;
          assert FirstIndex(ids, last) == |pre|;
        }
      }
    }
  }

  // ---------------------------------------------------------------------------------------
  // Child rows of an order

  function LinkOrder(l: Link): string { l.orderId }
  function StageOrder(s: Stage): string { s.orderId }
  function FileOrder(f: OrderFile): string { f.orderId }
  function PropertyOrder(p: Property): string { p.orderId }

  /** The rows that belong to an order, in table order. */
  function OfOrder<T(!new)>(rows: seq<T>, owner: T -> string, orderId: string): (r: seq<T>)
    ensures forall x :: x in r <==> x in rows && owner(x) == orderId
  {
    if rows == [] then []
    else (if owner(rows[0]) == orderId then [rows[0]] else []) + OfOrder(rows[1..], owner, orderId)
  }

  /** The table after `DELETE ... WHERE order_id = orderId`. */
  function NotOfOrder<T(!new)>(rows: seq<T>, owner: T -> string, orderId: string): (r: seq<T>)
    ensures forall x :: x in r <==> x in rows && owner(x) != orderId
  {
    if rows == [] then []
    else (if owner(rows[0]) != orderId then [rows[0]] else []) + NotOfOrder(rows[1..], owner, orderId)
  }

  lemma {:induction false} OfOrderAppend<T(!new)>(a: seq<T>, b: seq<T>, owner: T -> string, orderId: string)
    ensures OfOrder(a + b, owner, orderId) == OfOrder(a, owner, orderId) + OfOrder(b, owner, orderId)
    decreases |a|
  {
    if a == [] {
      assert a + b == b;
    } else {
      assert (a + b)[0] == a[0];
      assert (a + b)[1..] == a[1..] + b;
      OfOrderAppend(a[1..], b, owner, orderId);
    }
  }

  lemma {:induction false} OfOrderAll<T(!new)>(rows: seq<T>, owner: T -> string, orderId: string)
    requires forall k :: 0 <= k < |rows| ==> owner(rows[k]) == orderId
    ensures OfOrder(rows, owner, orderId) == rows
    ensures forall o :: o != orderId ==> OfOrder(rows, owner, o) == []
    decreases |rows|
  {
    if rows != [] {
      OfOrderAll(rows[1..], owner, orderId);
    }
  }

  lemma {:induction false} OfOrderAfterDelete<T(!new)>(rows: seq<T>, owner: T -> string, orderId: string)
    ensures OfOrder(NotOfOrder(rows, owner, orderId), owner, orderId) == []
    ensures forall o :: o != orderId ==> OfOrder(NotOfOrder(rows, owner, orderId), owner, o) == OfOrder(rows, owner, o)
    decreases |rows|
  {
    if rows != [] {
      OfOrderAfterDelete(rows[1..], owner, orderId);
      var head: seq<T> := if owner(rows[0]) != orderId then [rows[0]] else [];
      OfOrderAppend(head, NotOfOrder(rows[1..], owner, orderId), owner, orderId);
      forall o | o != orderId
        ensures OfOrder(NotOfOrder(rows, owner, orderId), owner, o) == OfOrder(rows, owner, o)
      {
        OfOrderAppend(head, NotOfOrder(rows[1..], owner, orderId), owner, o);
      }
    }
  }

  /** Deleting an order's rows and inserting new ones leaves that order with exactly the new
      rows and every other order with exactly the rows it had. */
  lemma ReplaceRows<T(!new)>(rows: seq<T>, added: seq<T>, owner: T -> string, orderId: string)
    requires forall k :: 0 <= k < |added| ==> owner(added[k]) == orderId
    ensures OfOrder(NotOfOrder(rows, owner, orderId) + added, owner, orderId) == added
    ensures forall o :: o != orderId ==>
      OfOrder(NotOfOrder(rows, owner, orderId) + added, owner, o) == OfOrder(rows, owner, o)
  {
    var kept := NotOfOrder(rows, owner, orderId);
    OfOrderAfterDelete(rows, owner, orderId);
    OfOrderAll(added, owner, orderId);
    OfOrderAppend(kept, added, owner, orderId);
    forall o | o != orderId
      ensures OfOrder(kept + added, owner, o) == OfOrder(rows, owner, o)
    {
      OfOrderAppend(kept, added, owner, o);
    }
  }

  /** Deleting an order's rows leaves none of them and every other order's rows as they were. */
  lemma DeleteRows<T(!new)>(rows: seq<T>, owner: T -> string, orderId: string)
    ensures OfOrder(NotOfOrder(rows, owner, orderId), owner, orderId) == []
    ensures forall o :: o != orderId ==>
      OfOrder(NotOfOrder(rows, owner, orderId), owner, o) == OfOrder(rows, owner, o)
  {
    OfOrderAfterDelete(rows, owner, orderId);
  }

  function NewLinks(orderId: string, ids: seq<int>, start: int): (r: seq<Link>)
    ensures |r| == |ids| && forall k :: 0 <= k < |r| ==> r[k].orderId == orderId
  {
    seq(|ids|, k requires 0 <= k < |ids| => Link(start + k, orderId, ids[k]))
  }

  function NewFiles(orderId: string, items: seq<FileIn>, start: int): (r: seq<OrderFile>)
    ensures |r| == |items| && forall k :: 0 <= k < |r| ==> r[k].orderId == orderId
  {
    seq(|items|, k requires 0 <= k < |items| => OrderFile(start + k, orderId, items[k].name, items[k].url))
  }

  function NewProperties(orderId: string, items: seq<PropertyIn>, start: int): (r: seq<Property>)
    ensures |r| == |items| && forall k :: 0 <= k < |r| ==> r[k].orderId == orderId
  {
    seq(|items|, k requires 0 <= k < |items| =>
      Property(start + k, orderId, items[k].contractorId, items[k].name, items[k].quantity, items[k].comment))
  }

  /** `s.contractor_id or (ids[0] if ids else 0)`: an id of 0 counts as absent. */
  function StageContractor(s: StageIn, ids: seq<int>): int {
    if s.contractorId.Some? && s.contractorId.value != 0 then s.contractorId.value
    else if ids != [] then ids[0]
    else 0
  }

  /** `s.date or now`. */
  function StageDate(s: StageIn, now: int): int {
    if s.date.Some? then s.date.value else now
  }

  function NewStages(orderId: string, items: seq<StageIn>, ids: seq<int>, now: int, start: int): (r: seq<Stage>)
    ensures |r| == |items| && forall k :: 0 <= k < |r| ==> r[k].orderId == orderId
  {
    seq(|items|, k requires 0 <= k < |items| =>
      Stage(start + k, orderId, StageContractor(items[k], ids), StageDate(items[k], now),
            items[k].hours, items[k].amount, items[k].comment))
  }

  /** The stage contractors that `get_or_create_contractor` is called for: the non-zero ones. */
  function StageOwners(items: seq<StageIn>, ids: seq<int>): (r: seq<int>)
    ensures forall x :: x in r ==> x != 0
    decreases |items|
  {
    if items == [] then []
    else
      var c := StageContractor(items[|items| - 1], ids);
      StageOwners(items[..|items| - 1], ids) + (if c != 0 then [c] else [])
  }

  // ---------------------------------------------------------------------------------------
  // The operations, as functions of the tables

  /** The order record after `upsert_order`: a new order starts from the defaults and every
      scalar field is then overwritten from the payload. */
  function OrderOf(p: OrderUpsert): Order {
    Order(p.orderId, p.chatLink, p.tzText, p.termsText, p.stagesDisplayMode, p.stagesReadonly)
  }

  /** `upsert_order(payload)` at time `now`. */
  function Upsert(db: Db, p: OrderUpsert, now: int): Db {
    var o := p.orderId;
    var ids := Dedup(p.contractors);
    db.(orders := db.orders[o := OrderOf(p)],
        contractors := EnsureAll(EnsureAll(db.contractors, ids), StageOwners(p.stages, ids)),
        links := NotOfOrder(db.links, LinkOrder, o) + NewLinks(o, ids, db.nextLinkId),
        nextLinkId := db.nextLinkId + |ids|,
        files := NotOfOrder(db.files, FileOrder, o) + NewFiles(o, p.files, db.nextFileId),
        nextFileId := db.nextFileId + |p.files|,
        properties := NotOfOrder(db.properties, PropertyOrder, o) + NewProperties(o, p.properties, db.nextPropertyId),
        nextPropertyId := db.nextPropertyId + |p.properties|,
        stages := NotOfOrder(db.stages, StageOrder, o) + NewStages(o, p.stages, ids, now, db.nextStageId),
        nextStageId := db.nextStageId + |p.stages|)
  }

  /** `delete_order(orderId)`: the order and all its rows go; an absent order changes nothing. */
  function DeleteOrder(db: Db, orderId: string): Db {
    if orderId in db.orders then
      db.(orders := db.orders - {orderId},
          links := NotOfOrder(db.links, LinkOrder, orderId),
          stages := NotOfOrder(db.stages, StageOrder, orderId),
          files := NotOfOrder(db.files, FileOrder, orderId),
          properties := NotOfOrder(db.properties, PropertyOrder, orderId))
    else db
  }

  /** `update_contractor_from_crm(tgId, u)`. */
  function UpdateFromCrm(db: Db, tgId: int, u: ContractorUpdate): Db {
    var m := Ensure(db.contractors, tgId);
    db.(contractors := m[tgId := Patch(m[tgId], u)])
  }

  /** The order is linked to the contractor by some association row. */
  predicate Assigned(links: seq<Link>, orderId: string, tgId: int) {
    exists k :: 0 <= k < |links| && links[k].orderId == orderId && links[k].contractorId == tgId
  }

  /** The inner join of orders with the contractor's association rows, in association order. */
  function JoinedOrders(links: seq<Link>, orders: map<string, Order>, tgId: int): (r: seq<Order>)
    ensures forall o :: o in r <==>
      exists k :: 0 <= k < |links| && links[k].contractorId == tgId && links[k].orderId in orders &&
        orders[links[k].orderId] == o
  {
    if links == [] then []
    else
      var l := links[0];
      var rest := JoinedOrders(links[1..], orders, tgId);
      assert forall k :: 1 <= k < |links| ==> links[k] == links[1..][k - 1];
      (if l.contractorId == tgId && l.orderId in orders then [orders[l.orderId]] else []) + rest
  }

  function OrderKey(o: Order): string { o.orderId }

  /** `list_orders_for_contractor(tgId)`: joined and ordered by order id. */
  function ListOrders(db: Db, tgId: int): seq<Order> {
    SortByText(JoinedOrders(db.links, db.orders, tgId), OrderKey)
  }

  /** `get_order_for_contractor(orderId, tgId)`. */
  function OrderFor(db: Db, orderId: string, tgId: int): Option<Order> {
    if orderId in db.orders && Assigned(db.links, orderId, tgId) then Some(db.orders[orderId]) else None
  }

  // ---------------------------------------------------------------------------------------
  // What the operations promise

  /** After an upsert the order has exactly the deduplicated contractors, the payload's files,
      properties and stages (in payload order), and its record is the payload's; every other
      order keeps its record and all its rows. */
  lemma UpsertReplacesOrder(db: Db, p: OrderUpsert, now: int)
    ensures var r := Upsert(db, p, now); var o := p.orderId; var ids := Dedup(p.contractors);
      r.orders == db.orders[o := OrderOf(p)] &&
      OfOrder(r.links, LinkOrder, o) == NewLinks(o, ids, db.nextLinkId) &&
      OfOrder(r.files, FileOrder, o) == NewFiles(o, p.files, db.nextFileId) &&
      OfOrder(r.properties, PropertyOrder, o) == NewProperties(o, p.properties, db.nextPropertyId) &&
      OfOrder(r.stages, StageOrder, o) == NewStages(o, p.stages, ids, now, db.nextStageId)
    ensures var r := Upsert(db, p, now);
      forall o :: o != p.orderId ==>
        OfOrder(r.links, LinkOrder, o) == OfOrder(db.links, LinkOrder, o) &&
        OfOrder(r.files, FileOrder, o) == OfOrder(db.files, FileOrder, o) &&
        OfOrder(r.properties, PropertyOrder, o) == OfOrder(db.properties, PropertyOrder, o) &&
        OfOrder(r.stages, StageOrder, o) == OfOrder(db.stages, StageOrder, o)
  {
    var o := p.orderId;
    var ids := Dedup(p.contractors);
    ReplaceRows(db.links, NewLinks(o, ids, db.nextLinkId), LinkOrder, o);
    ReplaceRows(db.files, NewFiles(o, p.files, db.nextFileId), FileOrder, o);
    ReplaceRows(db.properties, NewProperties(o, p.properties, db.nextPropertyId), PropertyOrder, o);
    ReplaceRows(db.stages, NewStages(o, p.stages, ids, now, db.nextStageId), StageOrder, o);
  }

  /** The order's association rows name each payload contractor once, in the order of first
      occurrence. */
  lemma UpsertLinksFollowPayload(db: Db, p: OrderUpsert, now: int)
    ensures var ls := OfOrder(Upsert(db, p, now).links, LinkOrder, p.orderId);
      |ls| == |Dedup(p.contractors)| &&
      forall k :: 0 <= k < |ls| ==> ls[k].contractorId == Dedup(p.contractors)[k]
  {
    UpsertReplacesOrder(db, p, now);
  }

  /** The order's files and properties are the payload's, position by position. */
  lemma UpsertFilesFollowPayload(db: Db, p: OrderUpsert, now: int)
    ensures var fs := OfOrder(Upsert(db, p, now).files, FileOrder, p.orderId);
      |fs| == |p.files| && forall k :: 0 <= k < |fs| ==> FileIn(fs[k].name, fs[k].url) == p.files[k]
    ensures var ps := OfOrder(Upsert(db, p, now).properties, PropertyOrder, p.orderId);
      |ps| == |p.properties| &&
      forall k :: 0 <= k < |ps| ==> PropertyIn(ps[k].name, ps[k].quantity, ps[k].comment, ps[k].contractorId) == p.properties[k]
  {
    UpsertReplacesOrder(db, p, now);
  }

  /** A stage with no contractor id (or 0) is credited to the first contractor of the payload,
      or to 0 when the payload names none; a stage's own non-zero id is kept; a stage without a
      date is dated `now`. */
  lemma UpsertStageDefaults(db: Db, p: OrderUpsert, now: int)
    ensures var ss := OfOrder(Upsert(db, p, now).stages, StageOrder, p.orderId);
      |ss| == |p.stages| &&
      forall k :: 0 <= k < |ss| ==>
        var s := p.stages[k];
        ss[k].hours == s.hours && ss[k].amount == s.amount && ss[k].comment == s.comment &&
        ss[k].contractorId ==
          (if s.contractorId.Some? && s.contractorId.value != 0 then s.contractorId.value
           else if p.contractors != [] then p.contractors[0]
           else 0) &&
        ss[k].date == (if s.date.Some? then s.date.value else now)
  {
    UpsertReplacesOrder(db, p, now);
    DedupKeepsFirstOccurrenceOrder(p.contractors);
  }

  lemma {:induction false} StageOwnersCover(items: seq<StageIn>, ids: seq<int>, k: int)
    requires 0 <= k < |items| && StageContractor(items[k], ids) != 0
    ensures StageContractor(items[k], ids) in StageOwners(items, ids)
    decreases |items|
  {
    var pre := items[..|items| - 1];
    if k < |items| - 1 {
      assert items[k] == pre[k];
      StageOwnersCover(pre, ids, k);
    }
  }

  /** After an upsert every payload contractor and every non-zero stage contractor exists; the
      contractors that existed are untouched and the new ones have the defaults; contractor 0 is
      created only when the payload lists it. */
  lemma UpsertCreatesContractors(db: Db, p: OrderUpsert, now: int)
    ensures var r := Upsert(db, p, now);
      (forall id :: id in p.contractors ==> id in r.contractors) &&
      (forall k :: 0 <= k < |p.stages| && StageContractor(p.stages[k], Dedup(p.contractors)) != 0 ==>
         StageContractor(p.stages[k], Dedup(p.contractors)) in r.contractors) &&
      (forall id :: id in db.contractors ==> id in r.contractors && r.contractors[id] == db.contractors[id]) &&
      (forall id :: id in r.contractors && id !in db.contractors ==> r.contractors[id] == NewContractor(id)) &&
      (0 in r.contractors ==> 0 in db.contractors || 0 in p.contractors)
  {
    var ids := Dedup(p.contractors);
    var owners := StageOwners(p.stages, ids);
    var m := EnsureAll(db.contractors, ids);
    EnsureAllEffect(db.contractors, ids);
    EnsureAllEffect(m, owners);
    forall k | 0 <= k < |p.stages| && StageContractor(p.stages[k], ids) != 0
      ensures StageContractor(p.stages[k], ids) in owners
    {
      StageOwnersCover(p.stages, ids, k);
    }
  }

  /** Deleting an order removes it and every row of it, and leaves every other order and its
      rows as they were; deleting an absent order, or deleting twice, changes nothing more. */
  lemma DeleteOrderEffect(db: Db, orderId: string)
    ensures var r := DeleteOrder(db, orderId);
      orderId !in r.orders &&
      (forall o :: o != orderId && o in db.orders ==> o in r.orders && r.orders[o] == db.orders[o]) &&
      (orderId in db.orders ==>
         OfOrder(r.links, LinkOrder, orderId) == [] && OfOrder(r.stages, StageOrder, orderId) == [] &&
         OfOrder(r.files, FileOrder, orderId) == [] && OfOrder(r.properties, PropertyOrder, orderId) == []) &&
      (forall o :: o != orderId ==>
         OfOrder(r.links, LinkOrder, o) == OfOrder(db.links, LinkOrder, o) &&
         OfOrder(r.stages, StageOrder, o) == OfOrder(db.stages, StageOrder, o) &&
         OfOrder(r.files, FileOrder, o) == OfOrder(db.files, FileOrder, o) &&
         OfOrder(r.properties, PropertyOrder, o) == OfOrder(db.properties, PropertyOrder, o)) &&
      r.contractors == db.contractors
    ensures orderId !in db.orders ==> DeleteOrder(db, orderId) == db
    ensures DeleteOrder(DeleteOrder(db, orderId), orderId) == DeleteOrder(db, orderId)
  {
    if orderId in db.orders {
      DeleteRows(db.links, LinkOrder, orderId);
      DeleteRows(db.stages, StageOrder, orderId);
      DeleteRows(db.files, FileOrder, orderId);
      DeleteRows(db.properties, PropertyOrder, orderId);
    }
  }

  /** A CRM update creates the contractor if needed, changes only the given fields of that one
      contractor and touches nothing else. */
  lemma UpdateFromCrmEffect(db: Db, tgId: int, u: ContractorUpdate)
    ensures var r := UpdateFromCrm(db, tgId, u);
      var before := if tgId in db.contractors then db.contractors[tgId] else NewContractor(tgId);
      r.contractors.Keys == db.contractors.Keys + {tgId} &&
      r.contractors[tgId] == Patch(before, u) &&
      (forall k :: k in db.contractors && k != tgId ==> r.contractors[k] == db.contractors[k]) &&
      r == db.(contractors := r.contractors)
  {
  }

  /** The listing holds exactly the existing orders assigned to the contractor, ordered by
      order id. */
  lemma ListOrdersExact(db: Db, tgId: int)
    requires WellKeyed(db)
    ensures var r := ListOrders(db, tgId);
      AscendingText(r, OrderKey) &&
      forall o :: o in r <==> o.orderId in db.orders && db.orders[o.orderId] == o && Assigned(db.links, o.orderId, tgId)
  {
    var j := JoinedOrders(db.links, db.orders, tgId);
    var r := ListOrders(db, tgId);
    assert multiset(r) == multiset(j);
    forall o ensures o in r <==> o in j {
      assert o in r <==> o in multiset(r);
      assert o in j <==> o in multiset(j);
    }
  }

  /** The lookup finds the order exactly when it exists and is assigned to the contractor. */
  lemma OrderForExact(db: Db, orderId: string, tgId: int)
    requires WellKeyed(db)
    ensures OrderFor(db, orderId, tgId).Some? <==> orderId in db.orders && Assigned(db.links, orderId, tgId)
    ensures OrderFor(db, orderId, tgId).Some? ==>
      OrderFor(db, orderId, tgId).value == db.orders[orderId] && OrderFor(db, orderId, tgId).value.orderId == orderId
  {
  }

  /** Found by the lookup means listed for the contractor, and conversely. */
  lemma OrderForAgreesWithList(db: Db, orderId: string, tgId: int)
    requires WellKeyed(db)
    ensures OrderFor(db, orderId, tgId).Some? <==>
      orderId in db.orders && db.orders[orderId] in ListOrders(db, tgId)
  {
    ListOrdersExact(db, tgId);
  }

  /** Every operation keeps each record stored under its own key. */
  lemma OperationsKeepKeys(db: Db, p: OrderUpsert, now: int, orderId: string, tgId: int, u: ContractorUpdate)
    requires WellKeyed(db)
    ensures WellKeyed(Upsert(db, p, now))
    ensures WellKeyed(DeleteOrder(db, orderId))
    ensures WellKeyed(UpdateFromCrm(db, tgId, u))
    ensures WellKeyed(db.(contractors := Ensure(db.contractors, tgId)))
  {
    var ids := Dedup(p.contractors);
    var m := EnsureAll(db.contractors, ids);
    EnsureAllEffect(db.contractors, ids);
    EnsureAllEffect(m, StageOwners(p.stages, ids));
  }

  // ---------------------------------------------------------------------------------------
  // The database, updated in place

  /** What one more payload stage adds to the stage rows and to the contractors created. */
  lemma StageLoopStep(contractors: map<int, Contractor>, orderId: string, items: seq<StageIn>, ids: seq<int>,
                      now: int, start: int, i: int)
    requires 0 <= i < |items|
    ensures var c := StageContractor(items[i], ids);
      NewStages(orderId, items[..i + 1], ids, now, start)
        == NewStages(orderId, items[..i], ids, now, start) + [Stage(start + i, orderId, c, StageDate(items[i], now), items[i].hours, items[i].amount, items[i].comment)] &&
      EnsureAll(contractors, StageOwners(items[..i + 1], ids))
        == (if c != 0 then Ensure(EnsureAll(contractors, StageOwners(items[..i], ids)), c)
            else EnsureAll(contractors, StageOwners(items[..i], ids)))
  {
    var owners := StageOwners(items[..i], ids);
    var c := StageContractor(items[i], ids);
    assert items[..i + 1][..i] == items[..i] && items[..i + 1][i] == items[i];
    assert StageOwners(items[..i + 1], ids) == owners + (if c != 0 then [c] else []);
    if c != 0 {
      EnsureAllSnoc(contractors, owners, c);
    } else {
      assert owners + [] == owners;
    }
  }

  class Store {
    var contractors: map<int, Contractor>
    var orders: map<string, Order>
    var links: seq<Link>
    var stages: seq<Stage>
    var files: seq<OrderFile>
    var properties: seq<Property>
    var nextLinkId: int
    var nextStageId: int
    var nextFileId: int
    var nextPropertyId: int

    function State(): Db
      reads this
    {
      Db(contractors, orders, links, stages, files, properties, nextLinkId, nextStageId, nextFileId, nextPropertyId)
    }

    constructor ()
      ensures State() == Db(map[], map[], [], [], [], [], 1, 1, 1, 1)
    {
      contractors := map[];
      orders := map[];
      links := [];
      stages := [];
      files := [];
      properties := [];
      nextLinkId := 1;
      nextStageId := 1;
      nextFileId := 1;
      nextPropertyId := 1;
    }

    /** `get_or_create_contractor`. */
    method GetOrCreateContractor(tgId: int) returns (c: Contractor)
      modifies this
      ensures State() == old(State()).(contractors := Ensure(old(contractors), tgId))
      ensures c == contractors[tgId]
    {
      if tgId in contractors {
        return contractors[tgId];
      }
      c := NewContractor(tgId);
      contractors := contractors[tgId := c];
    }

    method EnsureContractors(ids: seq<int>)
      modifies this
      ensures State() == old(State()).(contractors := EnsureAll(old(contractors), ids))
    {
      var i := 0;
      while i < |ids|
        invariant 0 <= i <= |ids|
        invariant State() == old(State()).(contractors := EnsureAll(old(contractors), ids[..i]))
      {
        assert ids[..i + 1][..i] == ids[..i];
        var _ := GetOrCreateContractor(ids[i]);
        i := i + 1;
      }
      assert ids[..i] == ids;
    }

    method ReplaceLinks(orderId: string, ids: seq<int>)
      modifies this
      ensures State() == old(State()).(links := NotOfOrder(old(links), LinkOrder, orderId) + NewLinks(orderId, ids, old(nextLinkId)),
                                       nextLinkId := old(nextLinkId) + |ids|)
    {
      links := NotOfOrder(links, LinkOrder, orderId);
      ghost var kept := links;
      var i := 0;
      while i < |ids|
        invariant 0 <= i <= |ids|
        invariant links == kept + NewLinks(orderId, ids[..i], old(nextLinkId))
        invariant nextLinkId == old(nextLinkId) + i
        invariant State() == old(State()).(links := links, nextLinkId := nextLinkId)
      {
        assert NewLinks(orderId, ids[..i + 1], old(nextLinkId))
            == NewLinks(orderId, ids[..i], old(nextLinkId)) + [Link(nextLinkId, orderId, ids[i])];
        links := links + [Link(nextLinkId, orderId, ids[i])];
        nextLinkId := nextLinkId + 1;
        i := i + 1;
      }
      assert ids[..i] == ids;
    }

    method ReplaceFiles(orderId: string, items: seq<FileIn>)
      modifies this
      ensures State() == old(State()).(files := NotOfOrder(old(files), FileOrder, orderId) + NewFiles(orderId, items, old(nextFileId)),
                                       nextFileId := old(nextFileId) + |items|)
    {
      files := NotOfOrder(files, FileOrder, orderId);
      ghost var kept := files;
      var i := 0;
      while i < |items|
        invariant 0 <= i <= |items|
        invariant files == kept + NewFiles(orderId, items[..i], old(nextFileId))
        invariant nextFileId == old(nextFileId) + i
        invariant State() == old(State()).(files := files, nextFileId := nextFileId)
      {
        var f := OrderFile(nextFileId, orderId, items[i].name, items[i].url);
        assert NewFiles(orderId, items[..i + 1], old(nextFileId)) == NewFiles(orderId, items[..i], old(nextFileId)) + [f];
        files := files + [f];
        nextFileId := nextFileId + 1;
        i := i + 1;
      }
      assert items[..i] == items;
    }

    method ReplaceProperties(orderId: string, items: seq<PropertyIn>)
      modifies this
      ensures State() == old(State()).(properties := NotOfOrder(old(properties), PropertyOrder, orderId) + NewProperties(orderId, items, old(nextPropertyId)),
                                       nextPropertyId := old(nextPropertyId) + |items|)
    {
      properties := NotOfOrder(properties, PropertyOrder, orderId);
      ghost var kept := properties;
      var i := 0;
      while i < |items|
        invariant 0 <= i <= |items|
        invariant properties == kept + NewProperties(orderId, items[..i], old(nextPropertyId))
        invariant nextPropertyId == old(nextPropertyId) + i
        invariant State() == old(State()).(properties := properties, nextPropertyId := nextPropertyId)
      {
        var it := items[i];
        var row := Property(nextPropertyId, orderId, it.contractorId, it.name, it.quantity, it.comment);
        assert NewProperties(orderId, items[..i + 1], old(nextPropertyId))
            == NewProperties(orderId, items[..i], old(nextPropertyId)) + [row];
        properties := properties + [row];
        nextPropertyId := nextPropertyId + 1;
        i := i + 1;
      }
      assert items[..i] == items;
    }

    /** One iteration of the stage loop of `upsert_order`. */
    method AddPayloadStage(orderId: string, s: StageIn, ids: seq<int>, now: int)
      modifies this
      ensures var c := StageContractor(s, ids);
        State() == old(State()).(stages := old(stages) + [Stage(old(nextStageId), orderId, c, StageDate(s, now), s.hours, s.amount, s.comment)],
                                 nextStageId := old(nextStageId) + 1,
                                 contractors := if c != 0 then Ensure(old(contractors), c) else old(contractors))
    {
      var dt := if s.date.Some? then s.date.value else now;
      var contractorId := if s.contractorId.Some? && s.contractorId.value != 0 then s.contractorId.value
                          else if ids != [] then ids[0] else 0;
      if contractorId != 0 {
        var _ := GetOrCreateContractor(contractorId);
      }
      stages := stages + [Stage(nextStageId, orderId, contractorId, dt, s.hours, s.amount, s.comment)];
      nextStageId := nextStageId + 1;
    }

    /** One turn of the stage loop: the state after the first `i` stages of the payload, kept
        on top of `kept`, becomes the state after the first `i + 1`. */
    method StageTurn(orderId: string, items: seq<StageIn>, ids: seq<int>, now: int, i: nat, ghost kept: seq<Stage>, ghost s0: Db)
      requires i < |items|
      requires State() == s0.(stages := kept + NewStages(orderId, items[..i], ids, now, s0.nextStageId),
                              nextStageId := s0.nextStageId + i,
                              contractors := EnsureAll(s0.contractors, StageOwners(items[..i], ids)))
      modifies this
      ensures State() == s0.(stages := kept + NewStages(orderId, items[..i + 1], ids, now, s0.nextStageId),
                             nextStageId := s0.nextStageId + i + 1,
                             contractors := EnsureAll(s0.contractors, StageOwners(items[..i + 1], ids)))
    {
      ghost var done := NewStages(orderId, items[..i], ids, now, s0.nextStageId);
      StageLoopStep(s0.contractors, orderId, items, ids, now, s0.nextStageId, i);
      AddPayloadStage(orderId, items[i], ids, now);
      ghost var c := StageContractor(items[i], ids);
      ghost var st := Stage(s0.nextStageId + i, orderId, c, StageDate(items[i], now), items[i].hours, items[i].amount, items[i].comment);
      assert stages == kept + done + [st];
      assert kept + done + [st] == kept + (done + [st]);
    }

    method ReplaceStages(orderId: string, items: seq<StageIn>, ids: seq<int>, now: int)
      modifies this
      ensures State() == old(State()).(stages := NotOfOrder(old(stages), StageOrder, orderId) + NewStages(orderId, items, ids, now, old(nextStageId)),
                                       nextStageId := old(nextStageId) + |items|,
                                       contractors := EnsureAll(old(contractors), StageOwners(items, ids)))
    {
      stages := NotOfOrder(stages, StageOrder, orderId);
      ghost var kept := stages;
      var i := 0;
      ghost var s0 := old(State());
      while i < |items|
        invariant 0 <= i <= |items|
        invariant State() == s0.(stages := kept + NewStages(orderId, items[..i], ids, now, s0.nextStageId),
                                 nextStageId := s0.nextStageId + i,
                                 contractors := EnsureAll(s0.contractors, StageOwners(items[..i], ids)))
      {
        StageTurn(orderId, items, ids, now, i, kept, s0);
        i := i + 1;
      }
      assert items[..i] == items;
    }

    /** The scalar part of `upsert_order`: load or create the order record, then overwrite
        its fields from the payload. */
    method SaveOrderRecord(p: OrderUpsert)
      requires WellKeyed(State())
      modifies this
      ensures State() == old(State()).(orders := old(orders)[p.orderId := OrderOf(p)])
    {
      if p.orderId !in orders {
        orders := orders[p.orderId := Order(p.orderId, None, None, None, Hours, false)];
      }
      assert orders[p.orderId].orderId == p.orderId;
      orders := orders[p.orderId := orders[p.orderId].(chatLink := p.chatLink, tzText := p.tzText, termsText := p.termsText,
                                                      stagesDisplayMode := p.stagesDisplayMode,
                                                      stagesReadonly := p.stagesReadonly)];
    }

    /** The child part of `upsert_order`: contractors, associations, files, properties, stages. */
    method ReplaceChildren(p: OrderUpsert, ids: seq<int>, now: int)
      modifies this
      ensures State() == old(State()).(
        contractors := EnsureAll(EnsureAll(old(contractors), ids), StageOwners(p.stages, ids)),
        links := NotOfOrder(old(links), LinkOrder, p.orderId) + NewLinks(p.orderId, ids, old(nextLinkId)),
        nextLinkId := old(nextLinkId) + |ids|,
        files := NotOfOrder(old(files), FileOrder, p.orderId) + NewFiles(p.orderId, p.files, old(nextFileId)),
        nextFileId := old(nextFileId) + |p.files|,
        properties := NotOfOrder(old(properties), PropertyOrder, p.orderId) + NewProperties(p.orderId, p.properties, old(nextPropertyId)),
        nextPropertyId := old(nextPropertyId) + |p.properties|,
        stages := NotOfOrder(old(stages), StageOrder, p.orderId) + NewStages(p.orderId, p.stages, ids, now, old(nextStageId)),
        nextStageId := old(nextStageId) + |p.stages|)
    {
      EnsureContractors(ids);
      ReplaceLinks(p.orderId, ids);
      ReplaceFiles(p.orderId, p.files);
      ReplaceProperties(p.orderId, p.properties);
      ReplaceStages(p.orderId, p.stages, ids, now);
    }

    /** `upsert_order`. */
    method UpsertOrder(p: OrderUpsert, now: int) returns (order: Order)
      requires WellKeyed(State())
      modifies this
      ensures State() == Upsert(old(State()), p, now)
      ensures order == OrderOf(p) && order == orders[p.orderId]
    {
      SaveOrderRecord(p);
      var ids := Dedup(p.contractors);
      ReplaceChildren(p, ids, now);
      order := orders[p.orderId];
    }

    /** `delete_order`. */
    method DeleteOrderById(orderId: string)
      modifies this
      ensures State() == DeleteOrder(old(State()), orderId)
    {
      if orderId in orders {
        orders := orders - {orderId};
        links := NotOfOrder(links, LinkOrder, orderId);
        stages := NotOfOrder(stages, StageOrder, orderId);
        files := NotOfOrder(files, FileOrder, orderId);
        properties := NotOfOrder(properties, PropertyOrder, orderId);
      }
    }

    /** `update_contractor_from_crm`. */
    method UpdateContractorFromCrm(tgId: int, u: ContractorUpdate) returns (c: Contractor)
      modifies this
      ensures State() == UpdateFromCrm(old(State()), tgId, u)
      ensures c == contractors[tgId]
    {
      c := GetOrCreateContractor(tgId);
      if u.advanceAmount.Some? {
        c := c.(advanceAmount := u.advanceAmount.value);
      }
      if u.contactInfo.Some? {
        c := c.(contactInfo := u.contactInfo);
      }
      if u.paymentInfo.Some? {
        c := c.(paymentInfo := u.paymentInfo);
      }
      contractors := contractors[tgId := c];
    }

    /** `list_orders_for_contractor`. */
    method ListOrdersForContractor(tgId: int) returns (r: seq<Order>)
      ensures r == ListOrders(State(), tgId)
      ensures AscendingText(r, OrderKey)
    {
      r := SortByText(JoinedOrders(links, orders, tgId), OrderKey);
    }

    /** `get_order_for_contractor`. */
    method GetOrderForContractor(orderId: string, tgId: int) returns (r: Option<Order>)
      ensures r == OrderFor(State(), orderId, tgId)
      ensures r.Some? ==> orderId in orders && r.value == orders[orderId]
    {
      r := OrderFor(State(), orderId, tgId);
    }
  }
}
