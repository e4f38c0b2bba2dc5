# Property service — a Dafny model

A model of a small HTTP service that creates, reads, updates and deletes "property"
records (an address, a price, bedroom and bathroom counts, and an optional type). It has
three parts:

- the **property service** (`PropertyStore.PropertyService`). This is a class over an
  in-memory table, standing in for the database. The table is a map from primary key to row,
  and `nextId` is the next value of the key sequence. Creating, updating and deleting are
  methods that change the table. Looking up by id and the paginated, price-filtered query
  are functions that only read it.
- the **request schemas and route handlers** (`Schemas`, `Routes`). Each schema is a predicate
  over a request. Beside it is a validator that returns the validated values or a validation
  error. Each handler validates the request, calls the service, and answers 200 with the
  result or 404 with a fixed message. Any error goes to `next`.
- the **error handlers** (`Middlewares`), in the order the application registers them. A
  validation error is answered 400 with its message and field errors. The catch-all is meant
  to answer anything else with 500 and a fixed, generic message. As registered it never
  receives an error, because its function declares three parameters. Express's own last
  handler then answers instead (see "## Findings"). `Middlewares.Dispatch` models that
  dispatch by parameter count. The rest of the model uses the intended chain,
  `Middlewares.HandleError`.

`App.Handle` runs one request through the router's body parser, a handler and the intended
error chain. The client methods in `App` state properties the service's tests assert. They are proved
from the handlers' specifications alone.

Modelling choices and assumptions:

- **Result order.** The collection query names no order. The model lists rows in ascending
  id order (`PropertyStore.RowsUpTo`). This is an assumption of the model, and it is the
  order the pagination tests expect.
- **Number types.** `price` is a decimal column, so it is a Dafny `real`. It is exact, not
  floating point. The room counts are `smallint` columns, typed `SmallInt` (−32768..32767).
  Numbers in a request are JavaScript numbers, also modelled as `real`.
- **Smallint assumption.** The POST and PUT schemas accept any number for the room counts.
  The model assumes the database refuses a value that is not an integer or falls outside
  the smallint range. The save then fails, the route forwards the failure, and the client
  gets 500. The database engine is not part of this model, so this refusal is an
  assumption, not an observed behaviour.
- **Bodies without JSON.** A request without a JSON body reaches the handlers with an empty
  object as its body. This is what the router's JSON body parser does. So a POST without a
  body fails on its first required field, and a PUT without a body is valid.
- **Schema rules.** `string().required()` refuses the empty string. The POST `type` field,
  declared `string().required().nullable()`, accepts null but not a missing key. The other
  fields refuse null.
- **Validation errors.** Validation stops at the first violation, so a validation error
  carries one field message, which is also its message. The wording of that message is not
  modelled: the model uses the path of the first violated field, in declaration order.

## Model

| member | source | states |
|---|---|---|
| `Entity.AsSmallInt` | src/entities/Property.ts:15-19 | a smallint column stores a number unchanged, and only when it is an integer in the 16-bit signed range |
| `Entity.SmallIntRoundTrip` | src/entities/Property.ts:15-19 | every smallint value is accepted again unchanged |
| `PropertyStore.RowsUpTo` | src/services/PropertyService.ts:58-61 | lists only stored rows with ids 1..n, in strictly ascending id order, so each at most once (the assumed result order) |
| `PropertyStore.RowsUpToComplete` | src/services/PropertyService.ts:58-61 | no stored row with an id in 1..n is missing from that listing |
| `PropertyStore.Matching` | src/services/PropertyService.ts:63-73 | keeps exactly the rows whose price lies in the inclusive range, and keeps ascending order |
| `PropertyStore.NoBoundsKeepsAll` | src/services/PropertyService.ts:63-73 | with neither bound given, the filter keeps every row |
| `PropertyStore.Page` | src/services/PropertyService.ts:56-61 | skips `skip` rows, then takes at most `limit`; past the end the result is empty |
| `PropertyStore.InsertedRow` | src/services/PropertyService.ts:17-26 | the new row has the given id and exactly the input's address, price, room counts and type; it is refused only when a room count does not fit a smallint |
| `PropertyStore.InsertIgnoresExtraFields` | src/services/PropertyService.ts:18-26 | any other field of the input object has no effect on the stored row |
| `PropertyStore.Merged` | src/services/PropertyService.ts:95-109 | each field given in the update replaces the stored one, each field not given keeps its value, the id never changes |
| `PropertyStore.EmptyUpdateKeepsRow` | src/services/PropertyService.ts:95-113 | an update that gives no field saves the row unchanged |
| `PropertyStore.MergeIdempotent` | src/services/PropertyService.ts:95-113 | applying the same update twice saves the same row as applying it once |
| `PropertyStore.FullUpdateReplacesAll` | src/services/PropertyService.ts:95-109 | an update with all five fields (a non-null type) leaves nothing of the old row but its id |
| `PropertyStore.TypeNeverCleared` | src/services/PropertyService.ts:107-109 | no update turns a non-null type back into null |
| `PropertyStore.PropertyService.constructor` | src/services/PropertyService.ts:7-9 | the service is bound to the shared table as it stands: it keeps every row and the key sequence, and empties or resets nothing |
| `PropertyStore.PropertyService.FindPropertyById` | src/services/PropertyService.ts:36-38 | the row with that id when one is stored, otherwise none; only reads |
| `PropertyStore.PropertyService.Rows` | src/services/PropertyService.ts:58-61 | only stored rows, each at most once, in ascending id order |
| `PropertyStore.AllRowsListed` | src/services/PropertyService.ts:58-61 | every stored row is in that listing |
| `PropertyStore.PropertyService.RowsInRange` | src/services/PropertyService.ts:63-73 | only stored rows whose price lies in the inclusive range, in ascending id order |
| `PropertyStore.AllRowsInRangeListed` | src/services/PropertyService.ts:63-73 | every stored row whose price lies in the range is in that listing |
| `PropertyStore.PropertyService.FindProperties` | src/services/PropertyService.ts:47-76 | at most `limit` rows: those in the price range that come after the first `(page-1)*limit` in that range; every result is stored, in range and in ascending id order |
| `PropertyStore.PropertyService.CreateProperty` | src/services/PropertyService.ts:17-29 | stores the allow-listed row under a fresh id not already in the table and returns it; nothing else changes; a refused value stores nothing |
| `PropertyStore.PropertyService.UpdateProperty` | src/services/PropertyService.ts:85-116 | an absent id returns none and changes nothing; otherwise the merged row replaces only that row and is returned |
| `PropertyStore.PropertyService.DeletePropertyById` | src/services/PropertyService.ts:124-132 | a stored row is removed alone and returned as it was; an absent id returns none and changes nothing; the id is absent afterwards |
| `PropertyStore.ContiguousRows` | src/routes/__tests__/propertyRoutes.spec.ts:110-160 | a table seeded with ids 1..count is listed as ids 1, 2, …, count |
| `PropertyStore.SeededPage` | src/routes/__tests__/propertyRoutes.spec.ts:110-160 | over ids 1..count with no bounds, a page holds exactly ids skip+1 .. min(skip+limit, count), and is empty past the end |
| `PropertyStore.SeededPagesOf126` | src/routes/__tests__/propertyRoutes.spec.ts:110-160 | over 126 rows: page 1 of 10 is ids 1..10, page 2 of 10 is 11..20, page 2 of 120 is 121..126, page 14 of 10 is empty |
| `PropertyStore.FirstPageFindsMatch` | src/routes/__tests__/propertyRoutes.spec.ts:162-181 | when a stored row's price lies in the range, the first page is not empty |
| `Schemas.ValidateGetRequest` | src/routes/propertyRoutes.ts:10-17 | succeeds exactly when page and limit are integers ≥ 1, minPrice is absent or an integer ≥ 0, and maxPrice is absent or an integer; it passes the four values on unchanged |
| `Schemas.ValidateIdRequest` | src/routes/propertyRoutes.ts:19-23 | succeeds exactly when the path id is an integer ≥ 1 (the delete schema at lines 54-58 states the same rule) |
| `Schemas.ValidatePostRequest` | src/routes/propertyRoutes.ts:25-36 | succeeds exactly when the body has all five fields with their declared types and no other key, without coercion (type may be null); the input carries the body's values |
| `Schemas.ValidatePutRequest` | src/routes/propertyRoutes.ts:38-52 | succeeds exactly when the id is valid and each body field present has its declared type, with no other key; a field is in the update exactly when it is in the body |
| `Schemas.PriceBoundsUnrelated` | src/routes/propertyRoutes.ts:10-17 | for any valid page and limit, every integer lower bound ≥ 0 above an integer upper bound is accepted, and the validated query carries both bounds as sent |
| `Schemas.EmptyBodyValidOnlyForUpdate` | src/routes/propertyRoutes.ts:25-52 | an empty body is valid for an update and invalid for a create |
| `Schemas.NoCoercion` | src/routes/propertyRoutes.ts:25-52 | a price sent as a string is refused by both body schemas |
| `Middlewares.RequestValidationMiddleware` | src/middlewares/requestValidationMiddleware.ts:13-31 | answers exactly the validation errors, with 400, their message and their field errors; passes every other error on unchanged |
| `Middlewares.UnexpectedErrorMiddleware` | src/middlewares/unexpectedErrorMiddleware.ts:12-20 | always 500 with the fixed message, whatever the error, and never passes the error on |
| `Middlewares.HandleError` | src/app.ts:10-11 | the intended chain: a validation error gets 400 with its report, never 500; every other error gets 500 with the fixed message |
| `Middlewares.Respond` | src/app.ts:10-11 | a handler's own response reaches the client unchanged; an error passed to `next` gets 400 exactly when it is a validation error, and an unexpected one gets 500 with the fixed message |
| `Middlewares.FinalHandler` | src/middlewares/requestValidationMiddleware.ts:27-29 | an error forwarded past every handler gets 500 with Express's HTML page, never the service's JSON message; outside production the page shows the error's text |
| `Middlewares.Dispatch` | src/app.ts:10-11 | an error reaches only handlers that declare four parameters; with none, Express's last handler answers; that page is sent only when no catch-all in the chain takes errors |
| `Middlewares.CatchAllSkippedAsWritten` | src/middlewares/unexpectedErrorMiddleware.ts:12-16 | as registered, an unexpected error gets Express's page rather than the catch-all's answer, and outside production that page carries the error's text |
| `Middlewares.IntendedChainIsHandleError` | src/app.ts:10-11 | with the catch-all declaring four parameters, the chain answers every error as `HandleError` |
| `Middlewares.ValidationAnsweredAsWritten` | src/middlewares/requestValidationMiddleware.ts:22-26 | as registered, a validation error still gets the intended 400 report |
| `Routes.BodyParsed` | src/routes/propertyRoutes.ts:8 | every request reaches the handlers with a body; a request without a JSON body gets `{}`, any other request is unchanged |
| `Routes.GetProperties` | src/routes/propertyRoutes.ts:60-78 | an invalid query goes to `next`; otherwise 200 with the service's page for the validated page, limit and price bounds |
| `Routes.GetPropertyById` | src/routes/propertyRoutes.ts:80-100 | an invalid id goes to `next`; a stored id gets 200 with its row, any other id 404 with the fixed message |
| `Routes.PostProperty` | src/routes/propertyRoutes.ts:102-114 | an invalid request goes to `next` and stores nothing; otherwise 200 with the created row under the next key, and the key sequence advances by one; a refused value goes to `next`, stores nothing and keeps the sequence, so a deleted id is never handed out again |
| `Routes.PutProperty` | src/routes/propertyRoutes.ts:116-134 | an invalid request goes to `next` and changes nothing; an absent id gets 404; otherwise 200 with the merged row, which replaces the old one |
| `Routes.DeleteProperty` | src/routes/propertyRoutes.ts:136-156 | an invalid id goes to `next` and changes nothing; a stored id gets 200 with the row as it was, and is removed; any other id gets 404 |
| `App.Handle` | src/app.ts:8-11 | a request is answered 400 exactly when its schema refuses it, and then the store is unchanged; 404 and (under the intended chain) 500 carry only their fixed messages; listing and get change nothing; create only adds the row under the old `nextId` and keeps every existing row; update and delete keep `nextId`, and change or remove only the row whose id is in the path |
| `App.DeleteTwice` | src/routes/__tests__/propertyRoutes.spec.ts:321-357 | a delete of a stored id answers with its row and removes it, so a later request for that id gets 404; the table loses only that id |
| `App.CreateThenGet` | src/routes/__tests__/propertyRoutes.spec.ts:42-85 | a created property is stored exactly as the create returned it, so a GET of its id answers with it unchanged |
| `App.PostWithoutBodyIs400` | src/routes/__tests__/propertyRoutes.spec.ts:87-92 | a POST without a body gets 400 and stores nothing |
| `App.ListWithoutPageIs400` | src/routes/__tests__/propertyRoutes.spec.ts:184-189 | a listing without page and limit gets 400 |
| `App.PutWithoutBody` | src/routes/__tests__/propertyRoutes.spec.ts:312-317 | a PUT without a body on a stored id gets 200 with the row unchanged |

## Findings

| source | as written | input that shows it | evidently intended | confidence | as-written member | corrected member |
|---|---|---|---|---|---|---|
| src/middlewares/unexpectedErrorMiddleware.ts:12-16 | the catch-all's function declares three parameters (`err`, `req`, `res`), so Express never passes it an error; an error that the validation handler forwards (requestValidationMiddleware.ts:28) reaches Express's last handler, which answers 500 with an HTML page that shows the stack trace outside production | any error other than a validation error, such as a failed database save in `POST /properties` | the handler declares a fourth `next` parameter and answers 500 with `{ message: 'Unexpected error occurred' }`, as its doc comment says | high; not executed | `Middlewares.CatchAllSkippedAsWritten` | `Middlewares.HandleError` |

## Left out

- Express routing, supertest and the HTTP and JSON wire format. Requests and responses are
  datatypes. The one part of the body parser that is kept is that a missing body becomes `{}`.
- The relational database and the ORM: SQL generation and the query builder. The table is
  an in-memory map. The model does not say what the database does with a query that names
  no order; it uses ascending id order instead.
- The key sequence after a refused insert. A refused insert does not advance `nextId` in
  the model. Whether the database consumes a key value in that case is not modelled.
- Database failures other than a refused smallint value, such as a lost connection. In the
  model every other service call succeeds. Any failure would reach the client as 500
  through the same path.
- Coercion of query-string and path values from strings to numbers. The model receives
  these as numbers already. A `Str` value there stands for a string that does not read as a
  number.
- The exact wording of validation messages, and which field the validator reports when
  several are wrong.
- The warning and error logging in the two error handlers.
- Express's last handler is modelled only as far as `Middlewares.FinalHandler` goes. It sends a
  500 page, with the error's text outside production and the status text in production. Its
  headers, its HTML markup and statuses carried on an error object are not modelled.
- Requests to paths outside the property routes. As registered, the three-parameter
  catch-all would also run as ordinary middleware for such a request. No model covers that.
- Middlewares.HandleError is the intended chain, and `Middlewares.Respond`, the routes and
  `App.Handle` use it. As registered, an unexpected error gets Express's HTML page instead
  of the fixed JSON message (see "## Findings"). So the 500 promises of `App.Handle` hold for
  the corrected catch-all only.
- One `PropertyStore.PropertyService` object stands for the shared database table, and the
  handlers all work on it. The source builds a new service per request
  (src/routes/propertyRoutes.ts:66, 86, 106, 120, 142), each bound to the same repository.
  A service holds nothing but that binding, so this changes no outcome. The model does not
  say which rows the database holds at start-up. The constructor takes them as they are.
- async/await scheduling. Each operation runs alone, one after another.
- Concurrent requests, and the last-write-wins behaviour of concurrent updates.
- `PropertyStore.PropertyService.FindProperties` requires `page` and `limit` to be at least
  1. Its only caller validates both first. What the database does with a negative offset
  is not modelled.
