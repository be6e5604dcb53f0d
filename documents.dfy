/** The documents of the two collections the booking service works on: the
    lessons of the "products" collection and the orders of the "order"
    collection, with the queries and updates the service runs over orders
    written as functions on the sequence of stored orders. */
module Documents {

  datatype Option<T> = None | Some(value: T)

  /** A business identifier as a JSON document holds it. MongoDB's equality
      filter compares type and value, so Num(1) and Text("1") are different. */
  datatype Ref = Num(n: int) | Text(s: string)

  /** The storage identifier `_id` of a lesson, kept as an opaque key. */
  type LessonKey = string

  /** A lesson ("product"). `id` is the business id that orders refer to. */
  datatype Lesson = Lesson(id: Ref, topic: string, location: string, price: int, availableSpaces: int)

  /** An order placed against the lesson whose business id is `id`. */
  datatype Order = Order(id: Ref, bookedSpaces: int, name: string, phoneNum: string, fulfilled: bool)

  /** The filter `{ id: ref, fulfilled: false }`: the reconciliation uses it both
      to find the orders it deducts and to mark them fulfilled. */
  predicate Unfulfilled(o: Order, ref: Ref) {
    o.id == ref && !o.fulfilled
  }

  /** The orders that `find({ id: ref, fulfilled: false })` returns, in the
      order the collection holds them. */
  function Pending(orders: seq<Order>, ref: Ref): (r: seq<Order>)
    ensures |r| <= |orders|
    ensures forall o :: o in r ==> Unfulfilled(o, ref) && o in orders
    ensures forall i :: 0 <= i < |orders| && Unfulfilled(orders[i], ref) ==> orders[i] in r
  {
    if orders == [] then []
    else
      var last := orders[|orders| - 1];
      var rest := Pending(orders[..|orders| - 1], ref);
      if Unfulfilled(last, ref) then rest + [last] else rest
  }

  /** The orders for `ref` that are already fulfilled. */
  function FulfilledFor(orders: seq<Order>, ref: Ref): (r: seq<Order>)
    ensures forall o :: o in r ==> o.id == ref && o.fulfilled && o in orders
  {
    if orders == [] then []
    else
      var last := orders[|orders| - 1];
      var rest := FulfilledFor(orders[..|orders| - 1], ref);
      if last.id == ref && last.fulfilled then rest + [last] else rest
  }

  /** The total of `bookedSpaces` over a sequence of orders. */
  function SumBooked(orders: seq<Order>): int {
    if orders == [] then 0
    else SumBooked(orders[..|orders| - 1]) + orders[|orders| - 1].bookedSpaces
  }

  /** One order after `updateMany({ id: ref, fulfilled: false }, { $set: { fulfilled: true } })`. */
  function Fulfil(o: Order, ref: Ref): Order {
    if Unfulfilled(o, ref) then o.(fulfilled := true) else o
  }

  /** The whole order collection after that `updateMany`. */
  function MarkAll(orders: seq<Order>, ref: Ref): (r: seq<Order>)
    ensures |r| == |orders|
    ensures forall i :: 0 <= i < |orders| ==>
      r[i] == orders[i] || (!orders[i].fulfilled && r[i] == orders[i].(fulfilled := true))
    ensures forall i :: 0 <= i < |orders| ==> (r[i] != orders[i] <==> Unfulfilled(orders[i], ref))
  {
    if orders == [] then []
    else MarkAll(orders[..|orders| - 1], ref) + [Fulfil(orders[|orders| - 1], ref)]
  }

  /** The `modifiedCount` MongoDB reports for that `updateMany`: the number of
      documents whose value the update actually changes. */
  function ModifiedCount(orders: seq<Order>, ref: Ref): nat {
    if orders == [] then 0
    else
      var last := orders[|orders| - 1];
      ModifiedCount(orders[..|orders| - 1], ref) + (if Fulfil(last, ref) != last then 1 else 0)
  }

  /** A last element peeled off `s + [x]` is `x`, and what remains is `s`. */
  lemma Snoc<T>(s: seq<T>, x: T)
    ensures (s + [x])[..|s|] == s && (s + [x])[|s|] == x
  {
  }

  /** `find` returns every matching order as many times as the collection
      holds it, and no other order: a repeated booking is deducted each time. */
  lemma {:induction false} PendingCounts(orders: seq<Order>, ref: Ref)
    ensures forall o :: multiset(Pending(orders, ref))[o] == if Unfulfilled(o, ref) then multiset(orders)[o] else 0
  {
    if orders != [] {
      var prefix := orders[..|orders| - 1];
      PendingCounts(prefix, ref);
      assert orders == prefix + [orders[|orders| - 1]];
    }
  }

  /** The fulfilled orders for `ref` are counted with their multiplicity too. */
  lemma {:induction false} FulfilledForCounts(orders: seq<Order>, ref: Ref)
    ensures forall o :: multiset(FulfilledFor(orders, ref))[o] == if o.id == ref && o.fulfilled then multiset(orders)[o] else 0
  {
    if orders != [] {
      var prefix := orders[..|orders| - 1];
      FulfilledForCounts(prefix, ref);
      assert orders == prefix + [orders[|orders| - 1]];
    }
  }

  /** `find` and `updateMany` with the same filter agree: every matched order
      changes, so the modified count is the number of orders found. */
  lemma {:induction false} ModifiedCountIsPending(orders: seq<Order>, ref: Ref)
    ensures ModifiedCount(orders, ref) == |Pending(orders, ref)|
  {
    if orders != [] {
      ModifiedCountIsPending(orders[..|orders| - 1], ref);
    }
  }

  /** After marking, no order for `ref` is pending any more. */
  lemma {:induction false} NothingPendingAfterMarkAll(orders: seq<Order>, ref: Ref)
    ensures Pending(MarkAll(orders, ref), ref) == []
  {
    if orders != [] {
      var prefix := orders[..|orders| - 1];
      NothingPendingAfterMarkAll(prefix, ref);
      Snoc(MarkAll(prefix, ref), Fulfil(orders[|orders| - 1], ref));
    }
  }

  /** Marking orders for `ref` leaves the pending orders of every other
      business id as they were. */
  lemma {:induction false} MarkAllKeepsOtherPending(orders: seq<Order>, ref: Ref, other: Ref)
    requires other != ref
    ensures Pending(MarkAll(orders, ref), other) == Pending(orders, other)
  {
    if orders != [] {
      var prefix := orders[..|orders| - 1];
      MarkAllKeepsOtherPending(prefix, ref, other);
      Snoc(MarkAll(prefix, ref), Fulfil(orders[|orders| - 1], ref));
    }
  }

  /** Marking orders for `ref` leaves the fulfilled orders of every other
      business id as they were. */
  lemma {:induction false} MarkAllKeepsOtherFulfilled(orders: seq<Order>, ref: Ref, other: Ref)
    requires other != ref
    ensures FulfilledFor(MarkAll(orders, ref), other) == FulfilledFor(orders, other)
  {
    if orders != [] {
      var prefix := orders[..|orders| - 1];
      MarkAllKeepsOtherFulfilled(prefix, ref, other);
      Snoc(MarkAll(prefix, ref), Fulfil(orders[|orders| - 1], ref));
    }
  }

  /** Marking moves exactly the pending bookings of `ref` into its fulfilled
      bookings: nothing is counted twice and nothing is lost. */
  lemma {:induction false} MarkAllMovesBookings(orders: seq<Order>, ref: Ref)
    ensures SumBooked(FulfilledFor(MarkAll(orders, ref), ref))
         == SumBooked(FulfilledFor(orders, ref)) + SumBooked(Pending(orders, ref))
  {
    if orders != [] {
      var prefix := orders[..|orders| - 1];
      var last := orders[|orders| - 1];
      MarkAllMovesBookings(prefix, ref);
      Snoc(MarkAll(prefix, ref), Fulfil(last, ref));
      Snoc(FulfilledFor(MarkAll(prefix, ref), ref), Fulfil(last, ref));
      Snoc(FulfilledFor(prefix, ref), last);
      Snoc(Pending(prefix, ref), last);
    }
  }
}
