/** The serverless product handler: a module-level array that lives as long
    as the function instance, with a dispatch on the request method. */
module VercelProducts {

  import opened Values
  import opened Http
  import opened Tables

  class ProductStore {
    var products: seq<Record>

    /** A cold start: the array is empty. */
    constructor ()
      ensures products == []
    {
      products := [];
    }

    /** The exported handler. `now` is `Date.now()` and `randomSuffix` the
        random base-36 part of the generated id. */
    method Handle(httpMethod: string, body: Record, now: nat, randomSuffix: string) returns (resp: Response)
      modifies this
      ensures httpMethod == "OPTIONS" ==> resp == Response(200, Empty) && products == old(products)
      ensures httpMethod == "GET" ==> resp == Response(200, Items(old(products))) && products == old(products)
      ensures httpMethod == "POST" ==>
                var p := NewProduct(body, TimeBasedId(now, randomSuffix), now);
                resp == Response(201, Item(p)) && products == old(products) + [p]
      ensures httpMethod !in {"OPTIONS", "GET", "POST"} ==>
                resp == Reject(MethodNotAllowed) && products == old(products)
    {
      if httpMethod == "OPTIONS" {
        return Response(200, Empty);
      }
      if httpMethod == "GET" {
        return Response(200, Items(products));
      }
      if httpMethod == "POST" {
        var p := NewProduct(body, TimeBasedId(now, randomSuffix), now);
        products := products + [p];
        return Response(201, Item(p));
      }
      resp := Reject(MethodNotAllowed);
    }
  }
}
