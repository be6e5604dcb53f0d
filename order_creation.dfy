/** Order submission, `POST /collections/:collectionName`: only the "order"
    collection is accepted, the four fields of the request body must all be
    truthy in JavaScript's sense, and the stored order starts unfulfilled. */
module OrderCreation {
  import opened Documents
  import opened Store

  /** The fields of the request body the handler reads; `None` stands for a
      field that is missing, `undefined` or `null`. */
  datatype OrderBody = OrderBody(id: Option<Ref>, bookedSpaces: Option<int>, name: Option<string>, phoneNum: Option<string>)

  /** JavaScript truthiness of each field: present, and neither 0 nor "". */
  predicate TruthyRef(v: Option<Ref>) {
    match v
    case None => false
    case Some(Num(n)) => n != 0
    case Some(Text(s)) => s != ""
  }

  predicate TruthyInt(v: Option<int>) {
    v.Some? && v.value != 0
  }

  predicate TruthyText(v: Option<string>) {
    v.Some? && v.value != ""
  }

  predicate Complete(body: OrderBody) {
    TruthyRef(body.id) && TruthyInt(body.bookedSpaces) && TruthyText(body.name) && TruthyText(body.phoneNum)
  }

  datatype Rejection = WrongCollection | MissingFields

  datatype Checked = Accepted(order: Order) | Rejected(reason: Rejection)

  /** The handler's two checks, in order, and the document it builds. */
  function Check(collectionName: string, body: OrderBody): (r: Checked)
    ensures r == Rejected(WrongCollection) <==> collectionName != "order"
    ensures r == Rejected(MissingFields) <==> collectionName == "order" && !Complete(body)
    ensures r.Accepted? ==>
      && Some(r.order.id) == body.id && Some(r.order.bookedSpaces) == body.bookedSpaces
      && Some(r.order.name) == body.name && Some(r.order.phoneNum) == body.phoneNum
      && !r.order.fulfilled
  {
    if collectionName != "order" then Rejected(WrongCollection)
    else if !Complete(body) then Rejected(MissingFields)
    else Accepted(Order(body.id.value, body.bookedSpaces.value, body.name.value, body.phoneNum.value, false))
  }

  datatype Answer = Refused(reason: Rejection) | Inserted(at: nat)

  /** Both rejections answer 400; an insert answers 200. */
  function Status(a: Answer): (code: int)
    ensures code == 400 <==> a.Refused?
    ensures code == 200 <==> a.Inserted?
  {
    if a.Refused? then 400 else 200
  }

  /** The request handler itself, against the in-memory database: a rejected
      request writes nothing, an accepted one appends exactly one order. */
  method CreateOrder(db: Database, collectionName: string, body: OrderBody) returns (a: Answer)
    modifies db
    ensures db.lessons == old(db.lessons)
    ensures match Check(collectionName, body)
      case Rejected(reason) => a == Refused(reason) && db.orders == old(db.orders)
      case Accepted(order) => a == Inserted(|old(db.orders)|) && db.orders == old(db.orders) + [order]
  {
    var checked := Check(collectionName, body);
    match checked
    case Rejected(reason) =>
      a := Refused(reason);
    case Accepted(order) =>
      var at := db.InsertOrder(order);
      a := Inserted(at);
  }

  /** An accepted order is picked up by the next reconciliation of every
      lesson with its business id: it joins the pending orders, and its
      booking joins the sum that is deducted. */
  lemma NewOrderIsPending(orders: seq<Order>, collectionName: string, body: OrderBody)
    requires Check(collectionName, body).Accepted?
    ensures var order := Check(collectionName, body).order;
      && Pending(orders + [order], order.id) == Pending(orders, order.id) + [order]
      && SumBooked(Pending(orders + [order], order.id)) == SumBooked(Pending(orders, order.id)) + order.bookedSpaces
  {
  }

  /** A new order leaves the pending orders of other business ids alone. */
  lemma NewOrderKeepsOtherPending(orders: seq<Order>, collectionName: string, body: OrderBody, other: Ref)
    requires Check(collectionName, body).Accepted? && body.id != Some(other)
    ensures Pending(orders + [Check(collectionName, body).order], other) == Pending(orders, other)
  {
  }
}
