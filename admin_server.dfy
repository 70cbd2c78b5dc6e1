/** The file-backed admin database of the Express server and its routes.
    The database document `{products, orders, logs, sessions}` is the state
    of a `Server`; each route handler reads it, changes it and writes it
    back. What a request draws from outside (the clock, fresh uuids and
    whether each file write succeeds) is given to it as an `Env`. */
module AdminServer {

  import opened Values
  import opened Http
  import opened Sessions
  import opened ActivityLog
  import opened Tables
  import opened ImageUpload

  /** The outside world of one request: the instant `now` in milliseconds,
      the uuid drawn for a new session, product, order or image name,
      the uuid drawn for the log entry, whether the route's own database write
      succeeds and whether the log write of `addLog` succeeds. A failed write
      leaves the stored database as it was. */
  datatype Env = Env(now: nat, freshId: string, logId: string, saved: bool, logSaved: bool)

  class Server {
    /** ADMIN_CREDENTIALS, fixed when the process starts. */
    const adminUser: string
    const adminPassword: string

    var products: seq<Record>
    var orders: seq<Record>
    var logs: seq<LogEntry>
    var sessions: SessionTable

    /** A server over the document `readDatabase` falls back to. */
    constructor (adminUser: string, adminPassword: string)
      ensures this.adminUser == adminUser && this.adminPassword == adminPassword
      ensures products == [] && orders == [] && logs == [] && sessions == map[]
    {
      this.adminUser := adminUser;
      this.adminPassword := adminPassword;
      products, orders, logs, sessions := [], [], [], map[];
    }

    /** The log after addLog(action, details) in `env`. */
    function Logged(action: string, details: Record, env: Env): seq<LogEntry>
      reads this
    {
      if env.logSaved then logs + [LogEntry(env.logId, env.now, action, details)] else logs
    }

    /** addLog: one entry at the end when the write succeeds. */
    method AddLog(action: string, details: Record, env: Env)
      modifies this`logs
      ensures logs == old(Logged(action, details, env))
    {
      if env.logSaved {
        logs := logs + [LogEntry(env.logId, env.now, action, details)];
      }
    }

    predicate CredentialsMatch(body: Record)
    {
      Holds(body, "username", Str(adminUser)) && Holds(body, "password", Str(adminPassword))
    }

    /** POST /api/admin/login. The session write's outcome is not looked at:
        the reply is a success even when the session was not stored. */
    method Login(body: Record, env: Env) returns (resp: Response)
      modifies this`sessions, this`logs
      ensures CredentialsMatch(body) ==>
                && resp == Response(200, LoggedIn(env.freshId))
                && sessions == (if env.saved then old(sessions)[env.freshId := Issued(adminUser, env.now)]
                                else old(sessions))
                && logs == old(Logged("admin_login", map["username" := Str(adminUser)], env))
      ensures !CredentialsMatch(body) ==>
                resp == Reject(BadCredentials) && sessions == old(sessions) && logs == old(logs)
    {
      if CredentialsMatch(body) {
        if env.saved {
          sessions := sessions[env.freshId := Issued(adminUser, env.now)];
        }
        AddLog("admin_login", map["username" := Str(adminUser)], env);
        resp := Response(200, LoggedIn(env.freshId));
      } else {
        resp := Reject(BadCredentials);
      }
    }

    /** POST /api/admin/logout: drops the caller's session only. */
    method Logout(header: Option<string>, env: Env) returns (resp: Response)
      modifies this`sessions
      ensures var auth := old(VerifyAuth(sessions, header, env.now));
              && (auth.Err? ==> resp == Reject(auth.failure) && sessions == old(sessions))
              && (auth.Ok? ==> resp == Response(200, Done)
                               && sessions == if env.saved then old(sessions) - {auth.value} else old(sessions))
    {
      var auth := VerifyAuth(sessions, header, env.now);
      if auth.Err? {
        return Reject(auth.failure);
      }
      if auth.value in sessions && env.saved {
        sessions := sessions - {auth.value};
      }
      resp := Response(200, Done);
    }

    /** POST /api/upload-image, up to the file write, which is taken to
        succeed. `decodedSize` is the byte length of the decoded payload. */
    method UploadImage(header: Option<string>, body: Record, decodedSize: nat, env: Env) returns (resp: Response)
      modifies this`logs
      ensures var auth := VerifyAuth(sessions, header, env.now);
              var check := CheckImageData(Field(body, "imageData"));
              && (auth.Err? ==> resp == Reject(auth.failure) && logs == old(logs))
              && (auth.Ok? && check.Err? ==> resp == Reject(check.failure) && logs == old(logs))
              && (auth.Ok? && check.Ok? ==>
                    var name := UploadName(env.now, FileStem(Field(body, "filename"), env.freshId), check.value.ext);
                    && resp == Response(200, Uploaded(ImageUrl(name), name))
                    && logs == old(Logged("image_upload", map["filename" := Str(name), "size" := Num(decodedSize)], env)))
    {
      var auth := VerifyAuth(sessions, header, env.now);
      if auth.Err? {
        return Reject(auth.failure);
      }
      var check := CheckImageData(Field(body, "imageData"));
      if check.Err? {
        return Reject(check.failure);
      }
      var name := UploadName(env.now, FileStem(Field(body, "filename"), env.freshId), check.value.ext);
      AddLog("image_upload", map["filename" := Str(name), "size" := Num(decodedSize)], env);
      resp := Response(200, Uploaded(ImageUrl(name), name));
    }

    /** GET /api/products: the admin-added products, in stored order. */
    method ListProducts() returns (resp: Response)
      ensures resp.status == 200 && resp.reply.Items?
      ensures forall p :: p in resp.reply.recs <==> p in products && IsAdminAdded(p)
      ensures resp.reply.recs == AdminOnly(products)
    {
      resp := Response(200, Items(AdminOnly(products)));
    }

    /** POST /api/products. */
    method CreateProduct(header: Option<string>, body: Record, env: Env) returns (resp: Response)
      modifies this`products, this`logs
      ensures var auth := old(VerifyAuth(sessions, header, env.now));
              var p := NewProduct(body, env.freshId, env.now);
              && (auth.Err? ==> resp == Reject(auth.failure) && products == old(products) && logs == old(logs))
              && (auth.Ok? && !env.saved ==>
                    resp == Reject(SaveFailed) && products == old(products) && logs == old(logs))
              && (auth.Ok? && env.saved ==>
                    && resp == Response(200, Item(p))
                    && products == old(products) + [p]
                    && logs == old(Logged("product_created", Pick(p, {IdKey, "name"}), env)))
    {
      var auth := VerifyAuth(sessions, header, env.now);
      if auth.Err? {
        return Reject(auth.failure);
      }
      var p := NewProduct(body, env.freshId, env.now);
      if !env.saved {
        return Reject(SaveFailed);
      }
      products := products + [p];
      AddLog("product_created", Pick(p, {IdKey, "name"}), env);
      resp := Response(200, Item(p));
    }

    /** PUT /api/products/:id: patches the first product with the id. */
    method UpdateProduct(header: Option<string>, id: string, body: Record, env: Env) returns (resp: Response)
      modifies this`products, this`logs
      ensures var auth := old(VerifyAuth(sessions, header, env.now));
              var i := FindById(old(products), id);
              && (auth.Err? ==> resp == Reject(auth.failure) && products == old(products) && logs == old(logs))
              && (auth.Ok? && i == -1 ==>
                    resp == Reject(ProductNotFound) && products == old(products) && logs == old(logs))
              && (auth.Ok? && i != -1 && !env.saved ==>
                    resp == Reject(SaveFailed) && products == old(products) && logs == old(logs))
              && (auth.Ok? && i != -1 && env.saved ==>
                    var p := PatchProduct(old(products)[i], body, id, env.now);
                    && resp == Response(200, Item(p))
                    && products == old(products)[i := p]
                    && logs == old(Logged("product_updated", map[IdKey := Str(id)], env)))
    {
      var auth := VerifyAuth(sessions, header, env.now);
      if auth.Err? {
        return Reject(auth.failure);
      }
      var i := FindById(products, id);
      if i == -1 {
        return Reject(ProductNotFound);
      }
      var p := PatchProduct(products[i], body, id, env.now);
      if !env.saved {
        return Reject(SaveFailed);
      }
      products := products[i := p];
      AddLog("product_updated", map[IdKey := Str(id)], env);
      resp := Response(200, Item(p));
    }

    /** DELETE /api/products/:id: removes the first product with the id. */
    method DeleteProduct(header: Option<string>, id: string, env: Env) returns (resp: Response)
      modifies this`products, this`logs
      ensures var auth := old(VerifyAuth(sessions, header, env.now));
              var i := FindById(old(products), id);
              && (auth.Err? ==> resp == Reject(auth.failure) && products == old(products) && logs == old(logs))
              && (auth.Ok? && i == -1 ==>
                    resp == Reject(ProductNotFound) && products == old(products) && logs == old(logs))
              && (auth.Ok? && i != -1 && !env.saved ==>
                    resp == Reject(SaveFailed) && products == old(products) && logs == old(logs))
              && (auth.Ok? && i != -1 && env.saved ==>
                    && resp == Response(200, Done)
                    && products == RemoveAt(old(products), i)
                    && var removed := old(products)[i];
                       logs == old(Logged("product_deleted", map[IdKey := Str(id)] + Pick(removed, {"name"}), env)))
    {
      var auth := VerifyAuth(sessions, header, env.now);
      if auth.Err? {
        return Reject(auth.failure);
      }
      var i := FindById(products, id);
      if i == -1 {
        return Reject(ProductNotFound);
      }
      var deleted := products[i];
      if !env.saved {
        return Reject(SaveFailed);
      }
      products := RemoveAt(products, i);
      AddLog("product_deleted", map[IdKey := Str(id)] + Pick(deleted, {"name"}), env);
      resp := Response(200, Done);
    }

    /** GET /api/orders. */
    method ListOrders(header: Option<string>, now: nat) returns (resp: Response)
      ensures var auth := VerifyAuth(sessions, header, now);
              && (auth.Err? ==> resp.status == 401 && resp == Reject(auth.failure))
              && (auth.Ok? ==> resp == Response(200, Items(orders)))
    {
      var auth := VerifyAuth(sessions, header, now);
      if auth.Err? {
        return Reject(auth.failure);
      }
      resp := Response(200, Items(orders));
    }

    /** POST /api/orders: open to everyone; the status is always 'pending'. */
    method CreateOrder(body: Record, env: Env) returns (resp: Response)
      modifies this`orders, this`logs
      ensures var o := NewOrder(body, env.freshId, env.now);
              && (!env.saved ==> resp == Reject(SaveFailed) && orders == old(orders) && logs == old(logs))
              && (env.saved ==>
                    && resp == Response(200, Item(o))
                    && orders == old(orders) + [o]
                    && logs == old(Logged("order_created", Pick(o, {IdKey, "total"}), env)))
    {
      var o := NewOrder(body, env.freshId, env.now);
      if !env.saved {
        return Reject(SaveFailed);
      }
      orders := orders + [o];
      AddLog("order_created", Pick(o, {IdKey, "total"}), env);
      resp := Response(200, Item(o));
    }

    /** PUT /api/orders/:id: patches the first order with the id. */
    method UpdateOrder(header: Option<string>, id: string, body: Record, env: Env) returns (resp: Response)
      modifies this`orders, this`logs
      ensures var auth := old(VerifyAuth(sessions, header, env.now));
              var i := FindById(old(orders), id);
              && (auth.Err? ==> resp == Reject(auth.failure) && orders == old(orders) && logs == old(logs))
              && (auth.Ok? && i == -1 ==>
                    resp == Reject(OrderNotFound) && orders == old(orders) && logs == old(logs))
              && (auth.Ok? && i != -1 && !env.saved ==>
                    resp == Reject(SaveFailed) && orders == old(orders) && logs == old(logs))
              && (auth.Ok? && i != -1 && env.saved ==>
                    var o := PatchOrder(old(orders)[i], body, env.now);
                    && resp == Response(200, Item(o))
                    && orders == old(orders)[i := o]
                    && logs == old(Logged("order_updated", map[IdKey := Str(id)] + Pick(body, {StatusKey}), env)))
    {
      var auth := VerifyAuth(sessions, header, env.now);
      if auth.Err? {
        return Reject(auth.failure);
      }
      var i := FindById(orders, id);
      if i == -1 {
        return Reject(OrderNotFound);
      }
      var o := PatchOrder(orders[i], body, env.now);
      if !env.saved {
        return Reject(SaveFailed);
      }
      orders := orders[i := o];
      AddLog("order_updated", map[IdKey := Str(id)] + Pick(body, {StatusKey}), env);
      resp := Response(200, Item(o));
    }

    /** GET /api/logs: the last 100 entries. */
    method ListLogs(header: Option<string>, now: nat) returns (resp: Response)
      ensures var auth := VerifyAuth(sessions, header, now);
              && (auth.Err? ==> resp.status == 401 && resp == Reject(auth.failure))
              && (auth.Ok? ==> resp.status == 200 && resp.reply.Logs?
                               && |resp.reply.entries| == (if |logs| < Window then |logs| else Window)
                               && resp.reply.entries == logs[|logs| - |resp.reply.entries|..])
    {
      var auth := VerifyAuth(sessions, header, now);
      if auth.Err? {
        return Reject(auth.failure);
      }
      resp := Response(200, Logs(Recent(logs)));
    }
  }
}
