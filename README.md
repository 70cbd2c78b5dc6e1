# L1 Triangle shop backends — a Dafny model

This project models the server side of the L1 Triangle shop.

The main part is the Express server's file-backed admin database (`backend-render.js`). It keeps one JSON document `{products, orders, logs, sessions}`. Its routes do the following:
- log an admin in and out with 24-hour sessions;
- guard the admin routes with the `X-Session-Id` header (`verifyAuth`);
- create, update, delete and list products;
- create, update and list orders;
- keep an activity log whose listing shows the last 100 entries;
- accept base64 `data:image/...` uploads and name the stored file `<timestamp>-<name>.<ext>`.

The two serverless handlers (`api/products.js`, `api/orders.js`) are also modelled. Each keeps a module-level array that GET returns and POST appends to.

How the model is laid out:
- `values.dfy` (`Values`): JSON values and records. A record is a `map<string, Value>`. An `undefined` field is an absent key. The object spread `{...a, ...b}` is the right-biased map union `a + b`.
- `decimal.dfy` (`Decimal`): decimal numerals of `Date.now()` and of numbers.
- `http.dfy` (`Http`): failures, replies and status codes.
- `sessions.dfy` (`Sessions`): the session table and `verifyAuth`.
- `logs.dfy` (`ActivityLog`): the log entry and `slice(-100)`.
- `tables.dfy` (`Tables`): the product and order records built by spreads, the time-based id of the serverless stores, `findIndex` by id, `splice` and the admin-only filter.
- `image_upload.dfy` (`ImageUpload`): the data-URI checks, the regular expression, the stored file name and its URL.
- `admin_server.dfy` (`AdminServer`): the database as a class `Server`, whose route methods change its fields.
- `vercel_products.dfy`, `vercel_orders.dfy`: the two in-memory stores, one class each with a `Handle` method.

Some inputs come from outside the program: the clock, `uuidv4`, `Math.random` and whether each file write succeeds. Each request receives them as parameters (`AdminServer.Env`). A failed write leaves the stored document unchanged.

Behaviour of the code worth knowing:
- A body-supplied `id` overrides the generated product id, and nothing checks for duplicates. `Tables.BodyIdDuplicates` shows that a create can then duplicate a stored id, and lookups by that id keep reaching the older record.
- `POST /api/orders` has no session check.
- Logout writes no log entry.
- An order update keeps whatever `id` the body gives: a body `id` replaces the stored one. Product updates pin the route id.
- The upload's file name `<timestamp>-<filename>.<ext>` is joined under the uploads directory unchecked. A `filename` holding `/` names a missing subdirectory, so the file write throws and the route answers 500. One holding `..` writes outside the uploads directory. The model's 200 for such names rests on the file write being left out (see "## Left out").
- Login and logout ignore the result of their database write. Login answers 200 with a session id even when the session was not stored; `verifyAuth` then refuses that id.

## Model

| member | source | states |
|---|---|---|
| `Sessions.VerifyAuth` | backend-render.js:94-109 | the session check the routes use, with the lookup restricted to stored sessions: admits exactly when the header is present and non-empty, names a stored session, and that session's expiry is not earlier than now (expiry equal to now passes); a missing header gives 'Session requise', otherwise 'Session expirée' |
| `Sessions.VerifyAuthAsWritten` | backend-render.js:94-109 | the check as the code performs it: as above, except that a header naming an unstored `Object.prototype` property (`constructor`, `__proto__`, `toString`, ...) is admitted |
| `Sessions.AsWrittenDiffersOnInheritedNames` | backend-render.js:101-105 | the two checks disagree exactly on unstored inherited names, and there the code's check admits |
| `Sessions.ConstructorHeaderAdmitted` | backend-render.js:101-105 | `X-Session-Id: constructor` passes the code's check with no session stored, at every instant, while the own-property check refuses it |
| `Sessions.LoginAdmitsForADay` | backend-render.js:103-123 | a session issued at t is admitted at every instant up to and including t + 24 h, and at none after |
| `Sessions.AdmissionIsMonotone` | backend-render.js:103 | a request admitted at an instant is admitted, with the same session, at every earlier instant |
| `Sessions.LogoutRevokesOnlyItsSession` | backend-render.js:145-152 | once logout removes a session, its id is refused and every other header is judged as before |
| `Sessions.LoginKeepsOtherSessions` | backend-render.js:122-123 | storing a new session leaves every other header judged as before |
| `AdminServer.Server.constructor` | backend-render.js:62 | the server starts from the empty document readDatabase falls back to |
| `AdminServer.Server.AddLog` | backend-render.js:75-85 | addLog appends exactly that entry and changes nothing else |
| `AdminServer.Server.Login` | backend-render.js:113-143 | exact username and password: 200 with the new session id, the session stored under that id with a 24 h expiry when the write succeeds, other sessions untouched, one 'admin_login' entry; other credentials: 401 and nothing changes |
| `AdminServer.Server.Logout` | backend-render.js:145-156 | unauthenticated: 401 and no change; otherwise 200, and only the caller's session is removed when the write succeeds |
| `AdminServer.Server.UploadImage` | backend-render.js:160-201 | 401 without a valid session; 400 for missing or non-data:image data or a pattern miss, 500 for non-string data, none of which logs; otherwise 200 with file name `<now>-<filename or uuid>.<ext>`, URL `/uploads/<name>`, and one 'image_upload' entry |
| `AdminServer.Server.ListProducts` | backend-render.js:205-214 | 200 with exactly the stored products whose `addedByAdmin` is `true`, in stored order |
| `AdminServer.Server.CreateProduct` | backend-render.js:221-244 | 401 with no change without a session; 500 with no change when the write fails; otherwise exactly the new product appended at the end, earlier products unchanged, and one 'product_created' entry with its id and name |
| `AdminServer.Server.UpdateProduct` | backend-render.js:246-273 | 401 or 404 (unknown id) with no change; 500 with no change on a failed write; otherwise only the first product with the id is replaced by its patch, the length is kept, and one 'product_updated' entry |
| `AdminServer.Server.DeleteProduct` | backend-render.js:275-296 | 401 or 404 with no change; 500 with no change on a failed write; otherwise exactly the first product with the id is removed, the others keep their order, and one 'product_deleted' entry with its id and name |
| `AdminServer.Server.ListOrders` | backend-render.js:300-308 | 401 without a valid session, else 200 with all stored orders |
| `AdminServer.Server.CreateOrder` | backend-render.js:310-333 | no session needed; 500 with no change on a failed write; otherwise exactly the new order appended, earlier orders unchanged, and one 'order_created' entry with its id and total |
| `AdminServer.Server.UpdateOrder` | backend-render.js:335-360 | 401 or 404 with no change; 500 with no change on a failed write; otherwise only the first order with the id is replaced by its patch, and one 'order_updated' entry with the id and the body's status |
| `AdminServer.Server.ListLogs` | backend-render.js:364-373 | 401 without a valid session, else 200 with the last min(100, n) entries in stored order |
| `ActivityLog.Recent` | backend-render.js:368 | `slice(-100)`: min(100, n) entries, and they are the stored log's suffix |
| `ActivityLog.RecentAfterAppend` | backend-render.js:78-83 | after addLog the new entry is the newest one listed, and the oldest listed drops out once 100 are shown |
| `Tables.NewProduct` | backend-render.js:224-229 | the new product has the body's fields plus `id`, `addedByAdmin` and `createdAt`; `addedByAdmin` is `true` and `createdAt` is now whatever the body says; a body `id` overrides the generated one |
| `Tables.NewOrder` | backend-render.js:313-318 | the new order has the body's fields plus `id`, `status` and `createdAt`; `status` is `'pending'` and `createdAt` is now whatever the body says; a body `id` overrides the generated one |
| `Tables.PatchProduct` | backend-render.js:255-261 | old fields overridden by body fields, then `id` pinned to the route id, `addedByAdmin` true and `updatedAt` now |
| `Tables.PatchOrder` | backend-render.js:344-348 | old fields overridden by body fields (the id included), then `updatedAt` now |
| `Tables.FindById` | backend-render.js:249 | `findIndex`: -1 exactly when no record has that string id, else the first index that has it |
| `Tables.FindAfterAppend` | backend-render.js:249 | appending a record changes a lookup only when no earlier record had the id |
| `Tables.UpdateKeepsPosition` | backend-render.js:249-261 | after an update the patched product is still the first one with the route id |
| `Tables.CreatedIdUnseen` | backend-render.js:224-232 | with no body `id` and an unused uuid, the created product is the only one with its id |
| `Tables.BodyIdDuplicates` | backend-render.js:224-232 | a body `id` already stored gives a duplicate, and lookups by it still reach the older product |
| `Tables.RemoveAt` | backend-render.js:284 | `splice(i, 1)`: one element shorter, the elements before i in place, the ones after shifted down by one |
| `Tables.RemoveAtMultiset` | backend-render.js:284 | the removed element is the only element lost |
| `Tables.AdminOnly` | backend-render.js:211 | `filter(p => p.addedByAdmin === true)`: a record is listed exactly when it is stored and admin-added |
| `Tables.AdminOnlyAppend` | backend-render.js:211 | the filter distributes over concatenation, so the listing keeps stored order |
| `Tables.ListingAfterCreate` | backend-render.js:211-232 | a created product is listed, last |
| `Tables.ListingAfterReplace` | backend-render.js:211 | replacing a record by an admin-added one lists it at its place among the listed ones |
| `Tables.ListingAfterUpdate` | backend-render.js:211-261 | an updated product is listed at its place among the listed ones |
| `Tables.ListingAfterDelete` | backend-render.js:211-284 | after a delete the listing is that of the products before plus that of the products after the removed one |
| `Tables.TimeBasedIdReadBack` | api/products.js:20 | an id `Date.now() + random part` gives back its instant and its random part when random parts have equal length, so ids from different milliseconds never clash |
| `ImageUpload.WordRun` | backend-render.js:169 | the greedy `\w+`: the longest run of word characters at the start |
| `ImageUpload.MatchImageUri` | backend-render.js:169-175 | a match gives back a non-empty word type and a non-empty single-line payload that rebuild the input |
| `ImageUpload.MatchDataUri` | backend-render.js:169-175 | every `data:image/<word>;base64,<payload>` matches and gives back exactly its type and payload |
| `ImageUpload.CheckImageData` | backend-render.js:162-175 | succeeds exactly when `imageData` is a string the pattern matches; falsy data and data without the `data:image` prefix give 'Image invalide', a prefixed pattern miss gives 'Format image invalide'; truthy data that is not a string makes `startsWith` throw, a 500 |
| `ImageUpload.FileStem` | backend-render.js:179 | the filename, or else a uuid: the uuid when the filename is falsy, the filename itself when it is a non-empty string |
| `ImageUpload.UploadNameInjective` | backend-render.js:178-179 | distinct (instant, name, type) triples never give the same stored file name |
| `ImageUpload.NumeralPrefixUnique` | backend-render.js:179 | the timestamp and the rest can be read back from `<numeral>-<rest>` |
| `ImageUpload.ExtensionSuffixUnique` | backend-render.js:179 | the name and the type can be read back from `<name>.<type>` |
| `Decimal.NatToString` | backend-render.js:179 | `${Date.now()}` is a non-empty string of digits with no leading zero |
| `Decimal.NatToStringRoundTrip` | backend-render.js:179 | reading the numeral back gives the instant |
| `Decimal.NatToStringInjective` | backend-render.js:179 | different instants render to different numerals |
| `Values.PickOfTwo` | backend-render.js:234 | the log details `{id: p.id, name: p.name}` of a record with an id: the id, plus the name only when the record has one, since an undefined field is dropped |
| `VercelProducts.ProductStore.constructor` | api/products.js:2 | a cold start begins with an empty array |
| `VercelProducts.ProductStore.Handle` | api/products.js:4-34 | OPTIONS: 200, no change; GET: 200 with the stored array, no change; POST: 201 with the new product, appended at the end with `addedByAdmin` true and `createdAt` overriding the body, earlier elements unchanged; any other method: 405, no change |
| `VercelOrders.OrderStore.constructor` | api/orders.js:2 | a cold start begins with an empty array |
| `VercelOrders.OrderStore.Handle` | api/orders.js:4-34 | OPTIONS: 200, no change; GET: 200 with the stored array, no change; POST: 201 with the new order, appended at the end with `status` 'pending' and `createdAt` overriding the body, earlier elements unchanged; any other method: 405, no change |

## Left out

- File I/O: `readDatabase` and `writeDatabase` are not modelled. The state is always the last document written successfully. A failed write is the `saved`/`logSaved` flag of `Env`. A missing or unreadable file, which makes `readDatabase` return an empty document that the next write stores, is not modelled.
- The uploads directory creation and static file serving are not modelled.
- `AdminServer.Server.UploadImage`: does not model a failing `fs.writeFileSync` (a 500 reply), because the file system is outside the model. The image bytes are not kept; the model keeps only the decoded size, which is passed in because base64 decoding is a library call.
- Randomness and the clock: `uuidv4`, `Date.now`, `new Date()` and `Math.random` are parameters. One instant `now` stands for every clock read of a request: `verifyAuth`'s `new Date()`, the handler's `Date.now()` or `new Date()`, `addLog`'s timestamp, and in the serverless handlers the separate reads for the id and for `createdAt`. Nothing makes a drawn uuid different from stored ids; `Tables.CreatedIdUnseen` takes it as a precondition instead.
- Timestamps are milliseconds (`Time(ms)`, `Session.expires`), not ISO-8601 strings. The stored expiry is always well-formed here. A malformed expiry string would parse to an invalid date, which compares false and admits the request; that case is not modelled.
- Concurrency: each request is one atomic step. Two overlapping read-modify-write cycles, where one write can be lost, are not modelled.
- Malformed stored data (a `products` or `orders` field that is not an array) and non-object request bodies are not modelled. Stored tables are always sequences and bodies always records. The exceptions and 500 replies that only such data causes are left out too. The one exception that is modelled is a truthy non-string `imageData`.
- JSON numbers are integers (`Num`). Fractional numbers, objects and arrays are `Other`, carrying their string conversion. The exponent notation JavaScript uses for very large numbers is not reproduced by `ImageUpload.Display`. Its `Time` case cannot arise from a request body.
- The order of fields in serialised JSON and the `message` strings of success replies are not modelled.
- `Sessions.VerifyAuth`: the routes use the own-property session lookup, not the code's lookup. The code's lookup also admits a header naming an inherited `Object.prototype` property. With `X-Session-Id: constructor`, every guarded route runs without a login: product create, update and delete, order update, the order and log listings, and uploads. Logout answers 200. `Sessions.VerifyAuthAsWritten` models that lookup; see "## Findings".
- Other keys with special meaning to JavaScript objects, such as a record field named `__proto__`, are treated as ordinary keys.
- Server wiring is not modelled: Express, CORS headers, the OPTIONS 204 middleware, body-parser limits, `/`, `/api`, `/api/health`, `app.listen` and the process error handlers. The serverless handlers' CORS headers and their `catch` branch, which nothing in them can reach, are left out too.
- `admin-dashboard-v2.js` is not part of this model: DOM building, a fetch client with retries and timeouts, session storage, float parsing. Neither are `api/index.js` (a constant health reply), the Netlify functions and the storefront script `js/produits.js`.

## Findings

| source | as written | input that shows it | evidently intended | confidence | as-written member | corrected member |
|---|---|---|---|---|---|---|
| backend-render.js:101-105 | `db.sessions?.[sessionId]` is a plain-object lookup, so an inherited name finds a truthy method or prototype whose `expires` is undefined, and `new Date(undefined) < new Date()` is false: the request is admitted | header `X-Session-Id: constructor`, no session stored | only a stored session is admitted (an own-property lookup such as `Object.hasOwn`) | high; not executed | `Sessions.VerifyAuthAsWritten`, `Sessions.ConstructorHeaderAdmitted` | `Sessions.VerifyAuth`, `Sessions.AsWrittenDiffersOnInheritedNames` |
