/** The database the service talks to, held in memory: the "products"
    collection as a map from storage key to lesson and the "order" collection
    as a sequence of orders. Each method is one call on a collection. */
module Store {
  import opened Documents

  /** The two collections' contents at one moment. */
  datatype State = State(lessons: map<LessonKey, Lesson>, orders: seq<Order>)

  class Database {
    var lessons: map<LessonKey, Lesson>
    var orders: seq<Order>

    constructor (lessons: map<LessonKey, Lesson>, orders: seq<Order>)
      ensures this.lessons == lessons && this.orders == orders
    {
      this.lessons := lessons;
      this.orders := orders;
    }

    ghost function Snapshot(): State
      reads this
    {
      State(lessons, orders)
    }

    /** `find({ id: ref, fulfilled: false }).toArray()` on the order collection. */
    method FindPending(ref: Ref) returns (found: seq<Order>)
      ensures found == Pending(orders, ref)
    {
      found := [];
      for i := 0 to |orders|
        invariant found == Pending(orders[..i], ref)
      {
        Snoc(orders[..i], orders[i]);
        assert orders[..i + 1] == orders[..i] + [orders[i]];
        if orders[i].id == ref && !orders[i].fulfilled {
          found := found + [orders[i]];
        }
      }
      assert orders[..|orders|] == orders;
    }

    /** `updateOne({ _id: key }, { $set: { availableSpaces: spaces } })` on the
        products collection, returning its `modifiedCount`: 1 only when the
        lesson exists and its stored value actually changes. */
    method SetAvailableSpaces(key: LessonKey, spaces: int) returns (modified: nat)
      modifies this
      ensures orders == old(orders)
      ensures modified == if key in old(lessons) && old(lessons)[key].availableSpaces != spaces then 1 else 0
      ensures lessons == if key in old(lessons)
                         then old(lessons)[key := old(lessons)[key].(availableSpaces := spaces)]
                         else old(lessons)
    {
      modified := 0;
      if key in lessons {
        var lesson := lessons[key];
        if lesson.availableSpaces != spaces {
          lessons := lessons[key := lesson.(availableSpaces := spaces)];
          modified := 1;
        } else {
          assert lessons[key := lesson.(availableSpaces := spaces)] == lessons;
        }
      }
    }

    /** `updateMany({ id: ref, fulfilled: false }, { $set: { fulfilled: true } })`
        on the order collection, returning its `modifiedCount`. */
    method MarkFulfilled(ref: Ref) returns (modified: nat)
      modifies this
      ensures lessons == old(lessons)
      ensures orders == MarkAll(old(orders), ref)
      ensures modified == ModifiedCount(old(orders), ref)
    {
      var current := orders;
      var updated: seq<Order> := [];
      modified := 0;
      for i := 0 to |current|
        invariant lessons == old(lessons) && orders == current
        invariant updated == MarkAll(current[..i], ref)
        invariant modified == ModifiedCount(current[..i], ref)
      {
        assert current[..i + 1] == current[..i] + [current[i]];
        Snoc(current[..i], current[i]);
        var o := current[i];
        var patched := if o.id == ref && !o.fulfilled then o.(fulfilled := true) else o;
        if patched != o {
          modified := modified + 1;
        }
        updated := updated + [patched];
      }
      assert current[..|current|] == current;
      orders := updated;
    }

    /** `insertOne(order)` on the order collection; the position of the new
        document stands for the identifier the database generates. */
    method InsertOrder(order: Order) returns (at: nat)
      modifies this
      ensures lessons == old(lessons)
      ensures orders == old(orders) + [order]
      ensures at == |old(orders)| && orders[at] == order
    {
      at := |orders|;
      orders := orders + [order];
    }
  }
}
