/**
 * The application: the property routes, then the intended error chain (the validation
 * handler, then the catch-all taking four parameters). Also client methods that state
 * properties the service's tests assert, with postconditions that follow from the
 * handlers' specifications alone.
 */
module App {
  import opened Wrappers
  import opened Json
  import opened Entity
  import opened Http
  import opened Schemas
  import opened PropertyStore
  import opened Middlewares
  import opened Routes

  datatype Endpoint = List | Get | Create | Update | Delete

  /** The schema of each endpoint. */
  predicate RequestValid(endpoint: Endpoint, req: Request) {
    match endpoint
    case List => GetRequestValid(req)
    case Get => IdRequestValid(req)
    case Create => PostRequestValid(req)
    case Update => PutRequestValid(req)
    case Delete => IdRequestValid(req)
  }

  /**
   * One request through the body parser, its route and the intended error chain (catch-all
   * taking four parameters). A request its schema refuses is answered 400 and leaves the
   * store as it was; no other outcome is a 400, so a validation error is never answered
   * 500; a 404 and, under the intended chain, a 500 carry only their fixed messages. Each
   * endpoint changes the store only as its route does.
   */
  method Handle(s: PropertyService, endpoint: Endpoint, req: Request) returns (resp: Response)
    requires s.Valid()
    modifies s
    ensures s.Valid()
    ensures resp.status == 400 <==> !RequestValid(endpoint, BodyParsed(req))
    ensures !RequestValid(endpoint, BodyParsed(req)) ==> s.table == old(s.table) && s.nextId == old(s.nextId)
    ensures resp.status in {200, 400, 404, 500}
    ensures resp.status == 404 ==> resp.body == Message(NOT_FOUND_MESSAGE)
    ensures resp.status == 500 ==> resp.body == Message(UNEXPECTED_MESSAGE)
    ensures endpoint == List || endpoint == Get ==> s.table == old(s.table) && s.nextId == old(s.nextId)
    ensures endpoint == Create ==> && (forall id :: id in old(s.table) ==> id in s.table && s.table[id] == old(s.table)[id])
                                   && (forall id :: id in s.table && id !in old(s.table) ==> id == old(s.nextId))
                                   && old(s.nextId) <= s.nextId <= old(s.nextId) + 1
    ensures endpoint == Update ==> && s.nextId == old(s.nextId) && s.table.Keys == old(s.table).Keys
                                   && forall id :: id in s.table && s.table[id] != old(s.table)[id] ==>
                                        "id" in req.params && req.params["id"] == Num(id as real)
    ensures endpoint == Delete ==> && s.nextId == old(s.nextId)
                                   && (forall id :: id in s.table ==> id in old(s.table) && s.table[id] == old(s.table)[id])
                                   && forall id :: id in old(s.table) && id !in s.table ==>
                                        "id" in req.params && req.params["id"] == Num(id as real)
  {
    var parsed := BodyParsed(req);
    var o: Outcome;
    match endpoint {
      case List => o := GetProperties(s, parsed);
      case Get => o := GetPropertyById(s, parsed);
      case Create => o := PostProperty(s, parsed);
      case Update => o := PutProperty(s, parsed);
      case Delete => o := DeleteProperty(s, parsed);
    }
    resp := Respond(o);
  }

  /** The request for one id in the path. */
  function IdRequest(id: int): Request {
    Request(map[], map["id" := Num(id as real)], None)
  }

  /**
   * A deleted row is gone: the delete answers with the row as it was, and a later request
   * for the same id (here, a second delete) gets 404.
   */
  method DeleteTwice(s: PropertyService, id: int) returns (first: Response, second: Response)
    requires s.Valid()
    requires id >= 1
    modifies s
    ensures first.status == 200 <==> id in old(s.table)
    ensures id in old(s.table) ==> first.body == Record(old(s.table)[id])
    ensures second == NOT_FOUND
    ensures s.table == old(s.table) - {id}
  {
    var o := DeleteProperty(s, IdRequest(id));
    first := Respond(o);
    o := DeleteProperty(s, IdRequest(id));
    second := Respond(o);
  }

  /** A created property is stored as it was returned, so a GET of its id returns it unchanged. */
  method CreateThenGet(s: PropertyService, body: Fields) returns (created: Response, fetched: Response)
    requires s.Valid()
    modifies s
    ensures created.status == 200 ==> created.body.Record? && fetched == created
  {
    var o := PostProperty(s, Request(map[], map[], Some(body)));
    created := Respond(o);
    fetched := NOT_FOUND;
    if o.Sent? && o.response.body.Record? {
      o := GetPropertyById(s, IdRequest(o.response.body.property.id));
      fetched := Respond(o);
    }
  }

  /** A POST without a body is answered 400 and stores nothing. */
  method PostWithoutBodyIs400(s: PropertyService) returns (resp: Response)
    requires s.Valid()
    modifies s
    ensures resp.status == 400
    ensures s.table == old(s.table) && s.nextId == old(s.nextId)
  {
    resp := Handle(s, Create, Request(map[], map[], None));
  }

  /** A listing without page and limit is answered 400. */
  method ListWithoutPageIs400(s: PropertyService) returns (resp: Response)
    requires s.Valid()
    modifies s
    ensures resp.status == 400
    ensures s.table == old(s.table)
  {
    resp := Handle(s, List, Request(map[], map[], None));
  }

  /** A PUT without a body on a stored id is answered 200 with the row unchanged. */
  method PutWithoutBody(s: PropertyService, id: int) returns (resp: Response)
    requires s.Valid()
    requires id >= 1 && id in s.table
    modifies s
    ensures resp == Response(200, Record(old(s.table)[id]))
    ensures s.table == old(s.table)
  {
    var req := BodyParsed(IdRequest(id));
    assert ValidatePutRequest(req) == Success(PutArgs(id, PropertyUpdate(None, None, None, None, None)));
    EmptyUpdateKeepsRow(s.table[id]);
    var o := PutProperty(s, req);
    resp := Respond(o);
  }
}
