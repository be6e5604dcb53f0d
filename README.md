# Lesson booking service: order fulfilment, modelled in Dafny

The service is a small Express/MongoDB backend for booking lessons. Its one
piece of real logic is the reconciliation run by
`PUT /collections/products/:lessonId`. The handler looks up a lesson by its
storage id `_id`. It finds the orders whose business `id` equals the
lesson's `id` and whose `fulfilled` is `false`. It deducts their
`bookedSpaces` from the lesson's `availableSpaces`, with no floor at zero,
and writes the new capacity back. It then marks those orders fulfilled.
Each step has its own early answer:

- "Lesson not found." (404)
- "No unfulfilled orders found for this lesson." (404)
- "Failed to update lesson." (500)
- "Failed to update orders." (500)

Beside it sits order submission, `POST /collections/:collectionName`. The
collection must be `order`, and `id`, `bookedSpaces`, `name` and `phoneNum`
must all be truthy. The stored order gets `fulfilled: false`.

The model has four modules, one file each:

- `Documents` (documents.dfy) holds the lesson and order documents. It
  writes the queries and updates the handler runs over the order collection
  as functions on the sequence of stored orders:
  - `Pending` is the `find` with the filter `{ id, fulfilled: false }`.
  - `SumBooked` is the total deducted.
  - `MarkAll` is the `updateMany` that sets `fulfilled: true`.
  - `ModifiedCount` is the `modifiedCount` MongoDB reports for it: the
    number of documents whose value actually changes.
  - `FulfilledFor` gives the orders already fulfilled.

  Its lemmas relate these functions to each other.
- `Store` (store.dfy) is the database held in memory: class `Database`
  with the products collection as a map from `_id` to lesson and the order
  collection as a sequence. Each of its methods is one collection call:
  - `find` is a loop checked against `Pending`.
  - The lesson's `updateOne` reports `modifiedCount` 1 only when the stored
    value changes.
  - `updateMany` is a loop checked against `MarkAll` and `ModifiedCount`.
  - `insertOne` appends.
- `Fulfilment` (fulfilment.dfy) holds the handler `Reconcile`, whose
  postcondition ties its outcome and the new database contents to the
  function `Reconciled`. It also holds the `forEach` deduction loop
  `Deduct`, and the lemmas that say what a reconciliation does.
- `OrderCreation` (order_creation.dfy) holds the request checks `Check`,
  the handler `CreateOrder`, and lemmas linking new orders to the next
  reconciliation.

Each request runs atomically, one after another. Under that assumption the
model shows that the "Failed to update orders." answer cannot occur. The
mark step uses the same filter as the find step, which found a non-empty
set, and every document it matches changes.

Two behaviours of the code are easy to miss, and the model keeps both:

- The lesson write counts as failed whenever `modifiedCount` is 0
  (app.js:121). That also happens when the pending bookings sum to 0, and
  then nothing is marked fulfilled.
- `bookedSpaces` is only checked for truthiness (app.js:64), so a negative
  value is accepted.

## Model

| member | source | states |
|---|---|---|
| Documents.Pending | app.js:98-101 | every order found has the lesson's business id and `fulfilled` false and is stored; every stored order that matches is found (multiplicities in `Documents.PendingCounts`) |
| Documents.PendingCounts | app.js:98-101 | every order matching `{ id, fulfilled: false }` is found as many times as the collection holds it, and no other order is found |
| Documents.FulfilledForCounts | app.js:126-129 | the fulfilled orders of a business id are exactly those of the collection, with their multiplicity |
| Documents.MarkAll | app.js:126-129 | the mark-fulfilled update keeps every order in place and changes one exactly when it matches `{ id, fulfilled: false }`, and then only by setting `fulfilled` to true |
| Documents.ModifiedCountIsPending | app.js:126-134 | the `modifiedCount` of the mark-fulfilled update equals the number of orders the find step returned, so the two filters agree |
| Documents.NothingPendingAfterMarkAll | app.js:126-129 | after marking, no order for that business id is unfulfilled |
| Documents.MarkAllKeepsOtherPending | app.js:126-129 | marking orders for one business id leaves the unfulfilled orders of every other id as they were |
| Documents.MarkAllKeepsOtherFulfilled | app.js:126-129 | marking orders for one business id leaves the fulfilled orders of every other id as they were |
| Documents.MarkAllMovesBookings | app.js:108-129 | marking moves exactly the summed pending bookings into the fulfilled bookings of that id |
| Store.Database.FindPending | app.js:98-101 | the `find` loop returns exactly `Pending` of the stored orders |
| Store.Database.SetAvailableSpaces | app.js:115-118 | the `updateOne` sets only the target lesson's `availableSpaces`; it reports 1 modified only if that lesson exists and its value changes; orders are untouched |
| Store.Database.MarkFulfilled | app.js:126-129 | the `updateMany` loop leaves the orders equal to `MarkAll` of the old ones; it returns `ModifiedCount`; lessons are untouched |
| Store.Database.InsertOrder | app.js:78 | `insertOne` appends exactly the given order and nothing else changes |
| Fulfilment.Status | app.js:93-139 | success answers 200, the two not-found answers 404, the two update failures 500 |
| Fulfilment.Deduct | app.js:108-112 | the deduction loop returns the starting capacity minus the sum of the pending orders' `bookedSpaces`, unclamped |
| Fulfilment.Reconcile | app.js:87-144 | the handler's answer and the new database contents are those of the step-by-step reconciliation `Reconciled` of the old contents |
| Fulfilment.Outcomes | app.js:91-134 | not found iff no lesson has the key; no pending orders iff no stored order matches; lesson update failed iff the pending bookings sum to 0; success iff they sum to non-zero; "Failed to update orders." never occurs |
| Fulfilment.FailureChangesNothing | app.js:93-123 | every answer other than success leaves both collections unchanged |
| Fulfilment.Success | app.js:107-139 | on success the returned and stored capacity is the old one minus the pending bookings; the only change to the lessons is that field of that lesson; exactly the summed orders become fulfilled, with every other field kept |
| Fulfilment.OrdersOnlyBecomeFulfilled | app.js:126-129 | under any answer, orders are never added or removed; an order either stays as it was or goes from unfulfilled to fulfilled |
| Fulfilment.ReconcileTwice | app.js:98-105 | a second reconciliation right after a success answers "No unfulfilled orders" and changes nothing |
| Fulfilment.BookingsCountedOnce | app.js:108-129 | capacity plus the bookings of fulfilled orders for the lesson is the same before and after: no booking is deducted twice or lost |
| Fulfilment.OtherLessonsUntouched | app.js:115-129 | other lessons keep their documents; those with a different business id also keep their pending and fulfilled orders |
| Fulfilment.TwoOrdersExample | app.js:87-139 | capacity 10 with pending orders of 3 and 2 ends at 5 with both orders fulfilled |
| Fulfilment.OverbookingExample | app.js:108-118 | capacity 1 with a pending order of 3 succeeds with capacity -2 |
| OrderCreation.Check | app.js:56-75 | rejects for the collection name iff it is not `order`; rejects for missing fields iff the name is right and a field is falsy; otherwise builds an order carrying the four fields with `fulfilled` false |
| OrderCreation.Status | app.js:58-82 | both rejections answer 400 and an insert answers 200 |
| OrderCreation.CreateOrder | app.js:56-84 | a rejected request writes nothing and returns the rejection; an accepted one appends exactly the checked order and returns its position |
| OrderCreation.NewOrderIsPending | app.js:69-78 | an accepted order joins the pending orders of its business id, and its booking joins the sum the next reconciliation deducts |
| OrderCreation.NewOrderKeepsOtherPending | app.js:69-78 | an accepted order leaves the pending orders of other business ids unchanged |

## Left out

- Express wiring is I/O plumbing and is not modelled: static files, the image route, request logging, the 404 catch-all, `app.listen` and `GET /lessons` (app.js:1-21, 44-53, 181-189).
- The properties file, the connection string and the `MongoClient` setup are configuration over a foreign driver (app.js:5-7, 24-41). The database is an explicit in-memory object instead.
- `GET /search` is not modelled (app.js:147-179). It relies on JavaScript `RegExp` semantics for user-supplied patterns and on MongoDB's `$toString` of a possibly fractional `price`.
- `new ObjectId(lessonId)` parsing and the catch-all "Internal server error." are not modelled (app.js:91, 140-142). Storage ids are opaque keys, so a malformed id is simply a key no lesson has and gets the 404 answer, not the 500 the driver's exception would give.
- Store failures are not modelled: the in-memory store never fails. This covers the `insertOne` error passed to `next(err)` (app.js:79-81) and the rejected promises that reach the catch-all.
- Concurrency is not modelled. Each request runs atomically and sequentially, so the race between two interleaved reconciliations of the same lesson, which can deduct the same orders twice, is outside the model.
- JavaScript coercion is not modelled. `bookedSpaces` and `availableSpaces` are integers. At app.js:111, `-=` always converts to a number: a string "3" deducts 3, and a non-numeric string makes the capacity NaN. Neither case is represented.
- Truthiness is "present and not 0 and not the empty string". At app.js:64 a string `bookedSpaces` such as "0" passes the check, because any non-empty string is truthy. The model, which holds `bookedSpaces` as a number, rejects 0 and cannot express the string "0". A body field of another JSON type (boolean, object) is not representable either. Fields of the request body beyond the four the handler reads are not represented, as the handler drops them.
- OrderCreation.Status: the 200 answer assumes a MongoDB driver that still accepts a callback for `insertOne` (app.js:78-83), as drivers before 5.0 do. From 5.0 the callback is never called and the request gets no answer; the driver version is not recorded in the source files modelled here.
- `price` is carried as an integer; the core never reads it. A lesson's `id` is assumed present; a lesson without one is not represented.
- The order of the documents `find` returns is the order of the stored sequence. No result depends on it.
