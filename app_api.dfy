/** The mini-app's own endpoints, called with the contractor id that authentication produced:
    the caller's profile and orders, the details of one order, adding a stage, and editing the
    profile. Each endpoint is a method on the store, proved equal to a function that gives the
    tables afterwards together with the response. */
module AppApi {
  import opened Common
  import opened Sorting
  import opened MiniappStore

  datatype StageOut = StageOut(id: int, date: int, hours: Option<int>, amount: Option<int>, comment: Option<string>, contractorId: int)
  datatype FileOut = FileOut(id: int, name: Option<string>, url: string)
  datatype PropertyOut = PropertyOut(id: int, name: string, quantity: int, comment: Option<string>)

  datatype MeResponse = MeResponse(contractor: Contractor, orders: seq<Order>)
  datatype OrderDetails = OrderDetails(
    order: Order,
    contractor: Contractor,
    stages: seq<StageOut>,
    files: seq<FileOut>,
    properties: seq<PropertyOut>)

  /** `hours` is validated as `ge=0`. */
  datatype AddStageRequest = AddStageRequest(hours: nat, comment: Option<string>)
  datatype UpdateProfileRequest = UpdateProfileRequest(contactInfo: Option<string>, paymentInfo: Option<string>)

  /** The tables after a request, and what the request answered. */
  datatype Served<T> = Served(db: Db, response: T)

  const NotAssigned := "Order not found or not assigned"
  const ReadonlyStages := "Stages are readonly for this order"

  function StageDateKey(s: Stage): int { s.date }
  function PropertyIdKey(p: Property): int { p.id }

  /** The order's stages, newest first. */
  function StagesShown(db: Db, orderId: string): seq<Stage> {
    SortDescending(OfOrder(db.stages, StageOrder, orderId), StageDateKey)
  }

  /** A property of the order that is shared (no contractor) or the caller's own. */
  predicate VisibleTo(p: Property, orderId: string, caller: int) {
    p.orderId == orderId && (p.contractorId.None? || p.contractorId.value == caller)
  }

  function Visible(rows: seq<Property>, orderId: string, caller: int): (r: seq<Property>)
    ensures forall x :: x in r <==> x in rows && VisibleTo(x, orderId, caller)
  {
    if rows == [] then []
    else (if VisibleTo(rows[0], orderId, caller) then [rows[0]] else []) + Visible(rows[1..], orderId, caller)
  }

  /** The properties the caller sees, highest id first. */
  function PropertiesShown(db: Db, orderId: string, caller: int): seq<Property> {
    SortDescending(Visible(db.properties, orderId, caller), PropertyIdKey)
  }

  function StageOutOf(s: Stage): StageOut {
    StageOut(s.id, s.date, s.hours, s.amount, s.comment, s.contractorId)
  }

  function FileOutOf(f: OrderFile): FileOut {
    FileOut(f.id, f.name, f.url)
  }

  function PropertyOutOf(p: Property): PropertyOut {
    PropertyOut(p.id, p.name, p.quantity, p.comment)
  }

  function StagesOut(rows: seq<Stage>): (r: seq<StageOut>)
    ensures |r| == |rows|
    ensures forall k :: 0 <= k < |rows| ==>
      r[k].id == rows[k].id && r[k].date == rows[k].date && r[k].hours == rows[k].hours &&
      r[k].amount == rows[k].amount && r[k].comment == rows[k].comment &&
      r[k].contractorId == rows[k].contractorId
  {
    seq(|rows|, k requires 0 <= k < |rows| => StageOutOf(rows[k]))
  }

  function FilesOut(rows: seq<OrderFile>): (r: seq<FileOut>)
    ensures |r| == |rows|
    ensures forall k :: 0 <= k < |rows| ==>
      r[k].id == rows[k].id && r[k].name == rows[k].name && r[k].url == rows[k].url
  {
    seq(|rows|, k requires 0 <= k < |rows| => FileOutOf(rows[k]))
  }

  function PropertiesOut(rows: seq<Property>): (r: seq<PropertyOut>)
    ensures |r| == |rows|
    ensures forall k :: 0 <= k < |rows| ==>
      r[k].id == rows[k].id && r[k].name == rows[k].name && r[k].quantity == rows[k].quantity &&
      r[k].comment == rows[k].comment
  {
    seq(|rows|, k requires 0 <= k < |rows| => PropertyOutOf(rows[k]))
  }

  /** `GET /api/app/me`: the caller's contractor record, created if missing, and the orders
      assigned to the caller. */
  function Me(db: Db, caller: int): Served<MeResponse> {
    var d := db.(contractors := Ensure(db.contractors, caller));
    Served(d, MeResponse(d.contractors[caller], ListOrders(d, caller)))
  }

  /** `GET /api/app/orders/{orderId}`. */
  function Details(db: Db, orderId: string, caller: int): Served<Http<OrderDetails>> {
    match OrderFor(db, orderId, caller)
    case None => Served(db, HttpError(404, NotAssigned))
    case Some(order) =>
      var d := db.(contractors := Ensure(db.contractors, caller));
      Served(d, Success(OrderDetails(
        order,
        d.contractors[caller],
        StagesOut(StagesShown(d, orderId)),
        FilesOut(OfOrder(d.files, FileOrder, orderId)),
        PropertiesOut(PropertiesShown(d, orderId, caller)))))
  }

  /** `POST /api/app/orders/{orderId}/stages` at time `now`; answers the new stage's id. */
  function AddStage(db: Db, orderId: string, req: AddStageRequest, caller: int, now: int): Served<Http<int>> {
    match OrderFor(db, orderId, caller)
    case None => Served(db, HttpError(404, NotAssigned))
    case Some(order) =>
      if order.stagesReadonly then Served(db, HttpError(403, ReadonlyStages))
      else
        var row := Stage(db.nextStageId, orderId, caller, now, Some(req.hours), None, req.comment);
        Served(db.(stages := db.stages + [row], nextStageId := db.nextStageId + 1), Success(db.nextStageId))
  }

  /** The profile form as a contractor update: the advance is never part of it. */
  function ProfileUpdate(req: UpdateProfileRequest): ContractorUpdate {
    ContractorUpdate(None, req.contactInfo, req.paymentInfo)
  }

  /** `PUT /api/app/profile`. */
  function UpdateProfile(db: Db, req: UpdateProfileRequest, caller: int): Db {
    UpdateFromCrm(db, caller, ProfileUpdate(req))
  }

  // ---------------------------------------------------------------------------------------
  // What the endpoints promise

  /** `me` leaves the caller with a contractor record (an existing one unchanged, otherwise a
      fresh one), changes nothing else, and lists exactly the caller's orders by order id. */
  lemma MeCreatesCallerAndListsOrders(db: Db, caller: int)
    requires WellKeyed(db)
    ensures var r := Me(db, caller);
      r.db == db.(contractors := Ensure(db.contractors, caller)) &&
      r.response.contractor == (if caller in db.contractors then db.contractors[caller] else NewContractor(caller)) &&
      AscendingText(r.response.orders, OrderKey) &&
      forall o :: o in r.response.orders <==>
        o.orderId in db.orders && db.orders[o.orderId] == o && Assigned(db.links, o.orderId, caller)
  {
    OperationsKeepKeys(db, OrderUpsert("", None, None, None, [], Hours, false, [], [], []), 0, "", caller,
                       ContractorUpdate(None, None, None));
    ListOrdersExact(db.(contractors := Ensure(db.contractors, caller)), caller);
  }

  /** The details of an order not assigned to the caller are refused with 404 and change
      nothing; otherwise the order and the caller's record are answered. */
  lemma DetailsGuard(db: Db, orderId: string, caller: int)
    ensures var r := Details(db, orderId, caller);
      (r.response.HttpError? <==> OrderFor(db, orderId, caller).None?) &&
      (r.response.HttpError? ==> r.response == HttpError(404, NotAssigned) && r.db == db) &&
      (r.response.Success? ==>
         r.response.value.order == db.orders[orderId] &&
         Assigned(db.links, orderId, caller) &&
         r.response.value.contractor == r.db.contractors[caller] &&
         r.db == db.(contractors := Ensure(db.contractors, caller)))
  {
  }

  /** The stages shown are all of the order's stages and no others, newest first. */
  lemma StagesNewestFirst(db: Db, orderId: string)
    ensures var r := StagesShown(db, orderId);
      multiset(r) == multiset(OfOrder(db.stages, StageOrder, orderId)) &&
      (forall s :: s in r <==> s in db.stages && s.orderId == orderId) &&
      forall i, j :: 0 <= i <= j < |r| ==> r[i].date >= r[j].date
  {
    var r := StagesShown(db, orderId);
    var all := OfOrder(db.stages, StageOrder, orderId);
    forall s ensures s in r <==> s in all {
      assert s in r <==> s in multiset(r);
      assert s in all <==> s in multiset(all);
    }
    forall i, j | 0 <= i <= j < |r| ensures r[i].date >= r[j].date {
      DescendingPairwise(r, StageDateKey, i, j);
    }
  }

  /** The properties shown are exactly the order's properties that are shared or the caller's,
      highest id first. */
  lemma PropertiesVisibleNewestFirst(db: Db, orderId: string, caller: int)
    ensures var r := PropertiesShown(db, orderId, caller);
      (forall x :: x in r <==>
         x in db.properties && x.orderId == orderId && (x.contractorId.None? || x.contractorId == Some(caller))) &&
      forall i, j :: 0 <= i <= j < |r| ==> r[i].id >= r[j].id
  {
    var r := PropertiesShown(db, orderId, caller);
    var v := Visible(db.properties, orderId, caller);
    forall x ensures x in r <==> x in v {
      assert x in r <==> x in multiset(r);
      assert x in v <==> x in multiset(v);
    }
    forall i, j | 0 <= i <= j < |r| ensures r[i].id >= r[j].id {
      DescendingPairwise(r, PropertyIdKey, i, j);
    }
  }

  /** Adding a stage is refused with 404 when the order is not the caller's and with 403 when
      its stages are read-only, changing nothing; otherwise exactly one stage is appended, for
      the caller, with the given hours and comment, no amount, dated `now`, under a fresh id
      that is answered. */
  lemma AddStageGuards(db: Db, orderId: string, req: AddStageRequest, caller: int, now: int)
    ensures var r := AddStage(db, orderId, req, caller, now);
      (r.response == HttpError(404, NotAssigned) <==> OrderFor(db, orderId, caller).None?) &&
      (r.response == HttpError(403, ReadonlyStages) <==>
         OrderFor(db, orderId, caller).Some? && db.orders[orderId].stagesReadonly) &&
      (r.response.HttpError? ==> r.db == db) &&
      (r.response.Success? ==>
         r.response.value == db.nextStageId &&
         r.db == db.(stages := r.db.stages, nextStageId := db.nextStageId + 1) &&
         r.db.stages == db.stages + [Stage(db.nextStageId, orderId, caller, now, Some(req.hours), None, req.comment)])
  {
  }

  /** A successful stage addition grows only that order's stage list, by the new row. */
  lemma AddStageOnlyThatOrder(db: Db, orderId: string, req: AddStageRequest, caller: int, now: int)
    requires AddStage(db, orderId, req, caller, now).response.Success?
    ensures var r := AddStage(db, orderId, req, caller, now);
      OfOrder(r.db.stages, StageOrder, orderId) ==
        OfOrder(db.stages, StageOrder, orderId) + [r.db.stages[|r.db.stages| - 1]] &&
      forall o :: o != orderId ==> OfOrder(r.db.stages, StageOrder, o) == OfOrder(db.stages, StageOrder, o)
  {
    var r := AddStage(db, orderId, req, caller, now);
    var row := r.db.stages[|r.db.stages| - 1];
    assert r.db.stages == db.stages + [row];
    OfOrderAppend(db.stages, [row], StageOrder, orderId);
    forall o | o != orderId ensures OfOrder(r.db.stages, StageOrder, o) == OfOrder(db.stages, StageOrder, o) {
      OfOrderAppend(db.stages, [row], StageOrder, o);
      assert OfOrder([row], StageOrder, o) == [];
    }
  }

  /** Editing the profile creates the caller's record if needed, never changes the advance,
      changes only the contact and payment details that were given, and touches no other
      contractor. */
  lemma UpdateProfileOnlyGivenFields(db: Db, req: UpdateProfileRequest, caller: int)
    ensures var r := UpdateProfile(db, req, caller);
      var before := if caller in db.contractors then db.contractors[caller] else NewContractor(caller);
      caller in r.contractors &&
      r.contractors[caller].advanceAmount == before.advanceAmount &&
      r.contractors[caller].contactInfo == (if req.contactInfo.None? then before.contactInfo else req.contactInfo) &&
      r.contractors[caller].paymentInfo == (if req.paymentInfo.None? then before.paymentInfo else req.paymentInfo) &&
      (forall k :: k in db.contractors && k != caller ==> k in r.contractors && r.contractors[k] == db.contractors[k]) &&
      r == db.(contractors := r.contractors)
  {
    UpdateFromCrmEffect(db, caller, ProfileUpdate(req));
  }

  // ---------------------------------------------------------------------------------------
  // The endpoints, on the database in place

  method GetMe(store: Store, caller: int) returns (r: MeResponse)
    modifies store
    ensures Served(store.State(), r) == Me(old(store.State()), caller)
  {
    var c := store.GetOrCreateContractor(caller);
    var orders := store.ListOrdersForContractor(caller);
    r := MeResponse(c, orders);
  }

  method GetOrderDetails(store: Store, orderId: string, caller: int) returns (r: Http<OrderDetails>)
    modifies store
    ensures Served(store.State(), r) == Details(old(store.State()), orderId, caller)
  {
    var order := store.GetOrderForContractor(orderId, caller);
    if order.None? {
      return HttpError(404, NotAssigned);
    }
    var c := store.GetOrCreateContractor(caller);
    var stages := SortDescending(OfOrder(store.stages, StageOrder, orderId), StageDateKey);
    var files := OfOrder(store.files, FileOrder, orderId);
    var props := SortDescending(Visible(store.properties, orderId, caller), PropertyIdKey);
    r := Success(OrderDetails(order.value, c, StagesOut(stages), FilesOut(files), PropertiesOut(props)));
  }

  method PostStage(store: Store, orderId: string, req: AddStageRequest, caller: int, now: int) returns (r: Http<int>)
    modifies store
    ensures Served(store.State(), r) == AddStage(old(store.State()), orderId, req, caller, now)
  {
    var order := store.GetOrderForContractor(orderId, caller);
    if order.None? {
      return HttpError(404, NotAssigned);
    }
    if order.value.stagesReadonly {
      return HttpError(403, ReadonlyStages);
    }
    var id := store.nextStageId;
    store.stages := store.stages + [Stage(id, orderId, caller, now, Some(req.hours), None, req.comment)];
    store.nextStageId := id + 1;
    r := Success(id);
  }

  method PutProfile(store: Store, req: UpdateProfileRequest, caller: int)
    modifies store
    ensures store.State() == UpdateProfile(old(store.State()), req, caller)
  {
    var c := store.GetOrCreateContractor(caller);
    if req.contactInfo.Some? {
      c := c.(contactInfo := req.contactInfo);
    }
    if req.paymentInfo.Some? {
      c := c.(paymentInfo := req.paymentInfo);
    }
    store.contractors := store.contractors[caller := c];
  }
}
