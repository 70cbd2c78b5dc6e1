/** The serverless order handler: a module-level array that lives as long
    as the function instance, with a dispatch on the request method. */
module VercelOrders {

  import opened Values
  import opened Http
  import opened Tables

  class OrderStore {
    var orders: seq<Record>

    /** A cold start: the array is empty. */
    constructor ()
      ensures orders == []
    {
      orders := [];
    }

    /** The exported handler. `now` is `Date.now()` and `randomSuffix` the
        random base-36 part of the generated id. */
    method Handle(httpMethod: string, body: Record, now: nat, randomSuffix: string) returns (resp: Response)
      modifies this
      ensures httpMethod == "OPTIONS" ==> resp == Response(200, Empty) && orders == old(orders)
      ensures httpMethod == "GET" ==> resp == Response(200, Items(old(orders))) && orders == old(orders)
      ensures httpMethod == "POST" ==>
                var o := NewOrder(body, TimeBasedId(now, randomSuffix), now);
                resp == Response(201, Item(o)) && orders == old(orders) + [o]
      ensures httpMethod !in {"OPTIONS", "GET", "POST"} ==>
                resp == Reject(MethodNotAllowed) && orders == old(orders)
    {
      if httpMethod == "OPTIONS" {
        return Response(200, Empty);
      }
      if httpMethod == "GET" {
        return Response(200, Items(orders));
      }
      if httpMethod == "POST" {
        var o := NewOrder(body, TimeBasedId(now, randomSuffix), now);
        orders := orders + [o];
        return Response(201, Item(o));
      }
      resp := Reject(MethodNotAllowed);
    }
  }
}
