/** The in-memory order list that the intake form appends to and the admin
    panel updates in place. */
module Store {
  import opened Orders

  class OrderBook {
    /** The stored orders, oldest first. */
    var orders: seq<Order>

    /** Identifiers are fresh UUIDs, so no two stored orders share one. */
    ghost predicate Valid()
      reads this
    {
      UniqueIds(orders)
    }

    /** Opens the store on the orders already saved. */
    constructor (saved: seq<Order>)
      requires UniqueIds(saved)
      ensures Valid() && orders == saved
    {
      orders := saved;
    }

    /** Handles a submitted order form.  A refused form leaves the list as it
        was; an accepted one appends exactly one pending record at the end
        and leaves every earlier order untouched. */
    method Submit(form: OrderForm, orderId: string, today: int)
      returns (outcome: Result<Order, SubmitError>)
      requires Valid()
      requires forall j :: 0 <= j < |orders| ==> orders[j].orderId != orderId
      modifies this
      ensures Valid()
      ensures outcome == Intake(form, orderId, today)
      ensures outcome.Err? ==> orders == old(orders)
      ensures outcome.Ok? ==> orders == old(orders) + [outcome.value]
      ensures outcome.Ok? ==> outcome.value == NewOrder(form, orderId, today)
    {
      outcome := Intake(form, orderId, today);
      if outcome.Ok? {
        AppendKeepsIds(orders, outcome.value);
        orders := orders + [outcome.value];
      }
    }

    /** Walks the list from the front to the order whose identifier is `id`,
        as the admin panel does when one of that order's buttons is pressed. */
    method Locate(id: string) returns (k: Option<nat>)
      ensures k.Some? ==> k.value < |orders| && orders[k.value].orderId == id
      ensures k.Some? ==> forall j :: 0 <= j < k.value ==> orders[j].orderId != id
      ensures k.None? ==> forall j :: 0 <= j < |orders| ==> orders[j].orderId != id
      ensures k == IndexOf(orders, id)
    {
      var i := 0;
      while i < |orders|
        invariant 0 <= i <= |orders|
        invariant forall j :: 0 <= j < i ==> orders[j].orderId != id
      {
        if orders[i].orderId == id {
          return Some(i);
        }
        i := i + 1;
      }
      return None;
    }

    /** "Mark as paid": the order's status becomes paid. */
    method MarkPaid(id: string)
      requires Valid()
      modifies this
      ensures Valid()
      ensures orders == PayOrder(old(orders), id)
      ensures |orders| == |old(orders)|
      ensures forall j :: 0 <= j < |orders| ==>
        orders[j] == if old(orders)[j].orderId == id
                     then old(orders)[j].(status := Paid) else old(orders)[j]
    {
      PayKeepsIds(orders, id);
      PayOrderSpec(orders, id);
      var k := Locate(id);
      if k.Some? {
        orders := orders[k.value := orders[k.value].(status := Paid)];
      }
    }

    /** "Send link to client": the order records the final link and its
        status becomes delivered. */
    method Deliver(id: string, link: string)
      requires Valid()
      modifies this
      ensures Valid()
      ensures orders == DeliverOrder(old(orders), id, link)
      ensures |orders| == |old(orders)|
      ensures forall j :: 0 <= j < |orders| ==>
        orders[j] == if old(orders)[j].orderId == id
                     then old(orders)[j].(finalLink := Some(link), status := Delivered)
                     else old(orders)[j]
    {
      DeliverKeepsIds(orders, id, link);
      DeliverOrderSpec(orders, id, link);
      var k := Locate(id);
      if k.Some? {
        orders := orders[k.value := orders[k.value].(finalLink := Some(link), status := Delivered)];
      }
    }

    /** "Delete order": the order is removed from the list by value. */
    method Delete(id: string)
      requires Valid()
      modifies this
      ensures Valid()
      ensures orders == DeleteOrder(old(orders), id)
      ensures match IndexOf(old(orders), id)
        case None => orders == old(orders)
        case Some(k) => orders == old(orders)[..k] + old(orders)[k + 1..]
      ensures forall j :: 0 <= j < |orders| ==> orders[j].orderId != id
    {
      DeleteRemovesId(orders, id);
      DeleteOrderSpec(orders, id);
      var k := Locate(id);
      if k.Some? {
        orders := RemoveFirst(orders, orders[k.value]);
      }
    }
  }
}
