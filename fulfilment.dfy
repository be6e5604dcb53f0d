/** The reconciliation behind `PUT /collections/products/:lessonId`: deduct the
    spaces booked by a lesson's unfulfilled orders from its capacity, then mark
    those orders fulfilled. Each request runs to completion before the next. */
module Fulfilment {
  import opened Documents
  import opened Store

  /** What the handler answers; the HTTP status of each is given by Status. */
  datatype Outcome =
    | LessonNotFound
    | NoPendingOrders
    | LessonUpdateFailed
    | OrdersUpdateFailed
    | Ok(newAvailableSpaces: int)

  /** The HTTP status the handler sends with each outcome. */
  function Status(o: Outcome): (code: int)
    ensures code == 200 <==> o.Ok?
    ensures code == 404 <==> o == LessonNotFound || o == NoPendingOrders
    ensures code == 500 <==> o == LessonUpdateFailed || o == OrdersUpdateFailed
  {
    match o
    case LessonNotFound => 404
    case NoPendingOrders => 404
    case LessonUpdateFailed => 500
    case OrdersUpdateFailed => 500
    case Ok(_) => 200
  }

  datatype Transition = Transition(outcome: Outcome, after: State)

  /** The reconciliation of the lesson stored under `key`, step by step as
      the handler runs it: look the lesson up, find its unfulfilled orders,
      deduct their bookings, write the lesson, mark the orders. A failed step
      ends the request and keeps the writes already made. */
  function Reconciled(s: State, key: LessonKey): Transition {
    if key !in s.lessons then Transition(LessonNotFound, s)
    else
      var lesson := s.lessons[key];
      var pending := Pending(s.orders, lesson.id);
      if |pending| == 0 then Transition(NoPendingOrders, s)
      else
        var spaces := lesson.availableSpaces - SumBooked(pending);
        if spaces == lesson.availableSpaces then Transition(LessonUpdateFailed, s)
        else
          var after := State(s.lessons[key := lesson.(availableSpaces := spaces)], MarkAll(s.orders, lesson.id));
          if ModifiedCount(s.orders, lesson.id) == 0 then Transition(OrdersUpdateFailed, after)
          else Transition(Ok(spaces), after)
  }

  /** The `forEach` that deducts each pending order's booking from the
      lesson's capacity. No floor is applied: the result may be negative. */
  method Deduct(availableSpaces: int, pending: seq<Order>) returns (spaces: int)
    ensures spaces == availableSpaces - SumBooked(pending)
  {
    spaces := availableSpaces;
    for i := 0 to |pending|
      invariant spaces == availableSpaces - SumBooked(pending[..i])
    {
      Snoc(pending[..i], pending[i]);
      assert pending[..i + 1] == pending[..i] + [pending[i]];
      spaces := spaces - pending[i].bookedSpaces;
    }
    assert pending[..|pending|] == pending;
  }

  /** The request handler itself, against the in-memory database. */
  method Reconcile(db: Database, key: LessonKey) returns (r: Outcome)
    modifies db
    ensures Transition(r, db.Snapshot()) == Reconciled(old(db.Snapshot()), key)
  {
    if key !in db.lessons {
      return LessonNotFound;
    }
    var lesson := db.lessons[key];
    var pending := db.FindPending(lesson.id);
    if |pending| == 0 {
      return NoPendingOrders;
    }
    var spaces := Deduct(lesson.availableSpaces, pending);
    var lessonModified := db.SetAvailableSpaces(key, spaces);
    if lessonModified == 0 {
      return LessonUpdateFailed;
    }
    var ordersModified := db.MarkFulfilled(lesson.id);
    if ordersModified == 0 {
      return OrdersUpdateFailed;
    }
    return Ok(spaces);
  }

  /** Which outcome a reconciliation has, in terms of the stored data alone;
      the "Failed to update orders." answer is never given, because the
      update uses the same filter as the query that found a non-empty set. */
  lemma Outcomes(s: State, key: LessonKey)
    ensures var t := Reconciled(s, key);
      && (t.outcome == LessonNotFound <==> key !in s.lessons)
      && (t.outcome == NoPendingOrders <==>
            key in s.lessons && forall i :: 0 <= i < |s.orders| ==> !Unfulfilled(s.orders[i], s.lessons[key].id))
      && (t.outcome == LessonUpdateFailed <==>
            key in s.lessons && Pending(s.orders, s.lessons[key].id) != []
            && SumBooked(Pending(s.orders, s.lessons[key].id)) == 0)
      && t.outcome != OrdersUpdateFailed
      && (t.outcome.Ok? <==> key in s.lessons && SumBooked(Pending(s.orders, s.lessons[key].id)) != 0)
  {
    if key in s.lessons {
      var ref := s.lessons[key].id;
      ModifiedCountIsPending(s.orders, ref);
      var pending := Pending(s.orders, ref);
      if pending != [] {
        assert pending[0] in pending;
      }
    }
  }

  /** Every answer other than success leaves both collections as they were. */
  lemma FailureChangesNothing(s: State, key: LessonKey)
    ensures !Reconciled(s, key).outcome.Ok? ==> Reconciled(s, key).after == s
  {
    if key in s.lessons {
      ModifiedCountIsPending(s.orders, s.lessons[key].id);
    }
  }

  /** On success the new capacity is the old one minus the bookings of the
      lesson's unfulfilled orders, it is what is stored, only that lesson's
      `availableSpaces` changes, and exactly those orders become fulfilled. */
  lemma Success(s: State, key: LessonKey)
    requires Reconciled(s, key).outcome.Ok?
    ensures key in s.lessons
    ensures var ref := s.lessons[key].id;
      var t := Reconciled(s, key);
      var n := t.outcome.newAvailableSpaces;
      && n == s.lessons[key].availableSpaces - SumBooked(Pending(s.orders, ref))
      && t.after.lessons == s.lessons[key := s.lessons[key].(availableSpaces := n)]
      && |t.after.orders| == |s.orders|
      && (forall i :: 0 <= i < |s.orders| ==>
            t.after.orders[i] == if Unfulfilled(s.orders[i], ref) then s.orders[i].(fulfilled := true) else s.orders[i])
  {
  }

  /** Whatever the outcome, orders are never removed or added, and an order
      only ever goes from unfulfilled to fulfilled, with its other fields kept. */
  lemma OrdersOnlyBecomeFulfilled(s: State, key: LessonKey)
    ensures var after := Reconciled(s, key).after.orders;
      && |after| == |s.orders|
      && forall i :: 0 <= i < |s.orders| ==>
           after[i] == s.orders[i] || (!s.orders[i].fulfilled && after[i] == s.orders[i].(fulfilled := true))
  {
  }

  /** Reconciling again right after a success, with no new orders, finds
      nothing to do and leaves capacity and orders unchanged. */
  lemma ReconcileTwice(s: State, key: LessonKey)
    requires Reconciled(s, key).outcome.Ok?
    ensures var again := Reconciled(Reconciled(s, key).after, key);
      again.outcome == NoPendingOrders && again.after == Reconciled(s, key).after
  {
    NothingPendingAfterMarkAll(s.orders, s.lessons[key].id);
  }

  /** The lesson's capacity plus the bookings of its fulfilled orders is the
      same before and after any reconciliation: each booking is deducted
      exactly once. */
  lemma BookingsCountedOnce(s: State, key: LessonKey)
    requires key in s.lessons
    ensures var ref := s.lessons[key].id;
      var after := Reconciled(s, key).after;
      && key in after.lessons && after.lessons[key].id == ref
      && after.lessons[key].availableSpaces + SumBooked(FulfilledFor(after.orders, ref))
         == s.lessons[key].availableSpaces + SumBooked(FulfilledFor(s.orders, ref))
  {
    var ref := s.lessons[key].id;
    var t := Reconciled(s, key);
    if t.outcome.Ok? || t.outcome == OrdersUpdateFailed {
      var n := s.lessons[key].availableSpaces - SumBooked(Pending(s.orders, ref));
      assert t.after.lessons[key].availableSpaces == n;
      assert t.after.orders == MarkAll(s.orders, ref);
      MarkAllMovesBookings(s.orders, ref);
    } else {
      assert t.after == s;
    }
  }

  /** Another lesson keeps its document; when its business id differs, its
      pending and fulfilled orders are unchanged too. */
  lemma OtherLessonsUntouched(s: State, key: LessonKey, other: LessonKey)
    requires other in s.lessons && other != key
    ensures var after := Reconciled(s, key).after;
      && other in after.lessons && after.lessons[other] == s.lessons[other]
      && (key in s.lessons && s.lessons[other].id != s.lessons[key].id ==>
            && Pending(after.orders, s.lessons[other].id) == Pending(s.orders, s.lessons[other].id)
            && FulfilledFor(after.orders, s.lessons[other].id) == FulfilledFor(s.orders, s.lessons[other].id))
  {
    if key in s.lessons {
      var ref := s.lessons[key].id;
      var mine := s.lessons[other].id;
      var after := Reconciled(s, key).after;
      assert after.orders == s.orders || after.orders == MarkAll(s.orders, ref);
      if mine != ref {
        MarkAllKeepsOtherPending(s.orders, ref, mine);
        MarkAllKeepsOtherFulfilled(s.orders, ref, mine);
      }
    }
  }

  /** A lesson with 10 spaces and unfulfilled orders of 3 and 2 spaces ends
      with 5 spaces and both orders fulfilled. */
  lemma TwoOrdersExample()
    ensures var math := Lesson(Text("math101"), "Maths", "London", 100, 10);
      var a := Order(Text("math101"), 3, "Ann", "0700", false);
      var b := Order(Text("math101"), 2, "Bob", "0701", false);
      Reconciled(State(map["L1" := math], [a, b]), "L1")
        == Transition(Ok(5), State(map["L1" := math.(availableSpaces := 5)],
                                   [a.(fulfilled := true), b.(fulfilled := true)]))
  {
    var ref := Text("math101");
    var a := Order(ref, 3, "Ann", "0700", false);
    var b := Order(ref, 2, "Bob", "0701", false);
    assert [a, b][..1] == [a] && [a][..0] == [];
    assert Pending([a], ref) == [a];
    assert Pending([a, b], ref) == [a, b];
    assert SumBooked([a]) == 3;
    assert SumBooked([a, b]) == 5;
    assert MarkAll([a], ref) == [a.(fulfilled := true)];
    assert MarkAll([a, b], ref) == [a.(fulfilled := true), b.(fulfilled := true)];
    assert ModifiedCount([a], ref) == 1;
    assert ModifiedCount([a, b], ref) == 2;
    var math := Lesson(ref, "Maths", "London", 100, 10);
    assert map["L1" := math]["L1" := math.(availableSpaces := 5)] == map["L1" := math.(availableSpaces := 5)];
  }

  /** A lesson with 1 space and an unfulfilled order of 3 spaces ends
      overbooked at -2: the deduction is not clamped at zero. */
  lemma OverbookingExample()
    ensures var art := Lesson(Num(7), "Art", "Leeds", 80, 1);
      var c := Order(Num(7), 3, "Cy", "0702", false);
      Reconciled(State(map["L2" := art], [c]), "L2").outcome == Ok(-2)
  {
  }
}
