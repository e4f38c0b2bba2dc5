/**
 * The five route handlers: validate the request, call the service, then answer 200 with
 * the result or 404 when the service found nothing; any failure is passed to `next`.
 */
module Routes {
  import opened Wrappers
  import opened Http
  import opened Schemas
  import opened PropertyStore

  const NOT_FOUND_MESSAGE := "Unable to find property for specified id"
  const NOT_FOUND := Response(404, Message(NOT_FOUND_MESSAGE))

  /**
   * The router's JSON body parser: a request without a JSON body reaches the handlers
   * with an empty object as its body.
   */
  function BodyParsed(req: Request): (r: Request)
    ensures r.body.Some?
    ensures req.body.Some? ==> r == req
    ensures req.body.None? ==> r == req.(body := Some(map[]))
  {
    if req.body.Some? then req else req.(body := Some(map[]))
  }

  /** GET /properties: the requested page of the price-filtered rows. */
  method GetProperties(s: PropertyService, req: Request) returns (o: Outcome)
    requires s.Valid()
    ensures match ValidateGetRequest(req)
      case Failure(e) => o == Next(Invalid(e))
      case Success(q) => o == Sent(Response(200, Records(s.FindProperties(q.page, q.limit, q.minPrice, q.maxPrice))))
  {
    var v := ValidateGetRequest(req);
    if v.Failure? {
      return Next(Invalid(v.error));
    }
    var q := v.value;
    var properties := s.FindProperties(q.page, q.limit, q.minPrice, q.maxPrice);
    o := Sent(Response(200, Records(properties)));
  }

  /** GET /properties/:id: the stored row, or 404. */
  method GetPropertyById(s: PropertyService, req: Request) returns (o: Outcome)
    requires s.Valid()
    ensures match ValidateIdRequest(req)
      case Failure(e) => o == Next(Invalid(e))
      case Success(id) => o == Sent(if id in s.table then Response(200, Record(s.table[id])) else NOT_FOUND)
  {
    var v := ValidateIdRequest(req);
    if v.Failure? {
      return Next(Invalid(v.error));
    }
    var property := s.FindPropertyById(v.value);
    if property.None? {
      o := Sent(NOT_FOUND);
    } else {
      o := Sent(Response(200, Record(property.value)));
    }
  }

  /** POST /properties: the created row. */
  method PostProperty(s: PropertyService, req: Request) returns (o: Outcome)
    requires s.Valid()
    modifies s
    ensures s.Valid()
    ensures match ValidatePostRequest(req)
      case Failure(e) => o == Next(Invalid(e)) && s.table == old(s.table) && s.nextId == old(s.nextId)
      case Success(input) => match InsertedRow(old(s.nextId), input)
        case None => o == Next(Unexpected(COLUMN_REFUSED)) && s.table == old(s.table) && s.nextId == old(s.nextId)
        case Some(p) => && o == Sent(Response(200, Record(p)))
                        && p.id !in old(s.table)
                        && s.table == old(s.table)[p.id := p]
                        && s.nextId == old(s.nextId) + 1
  {
    var v := ValidatePostRequest(req);
    if v.Failure? {
      return Next(Invalid(v.error));
    }
    var created := s.CreateProperty(v.value);
    match created
    case Failure(detail) =>
      o := Next(Unexpected(detail));
    case Success(property) =>
      o := Sent(Response(200, Record(property)));
  }

  /** PUT /properties/:id: the updated row, or 404. */
  method PutProperty(s: PropertyService, req: Request) returns (o: Outcome)
    requires s.Valid()
    modifies s
    ensures s.Valid() && s.nextId == old(s.nextId)
    ensures match ValidatePutRequest(req)
      case Failure(e) => o == Next(Invalid(e)) && s.table == old(s.table)
      case Success(a) =>
        if a.id !in old(s.table) then o == Sent(NOT_FOUND) && s.table == old(s.table)
        else match Merged(old(s.table)[a.id], a.updates)
          case None => o == Next(Unexpected(COLUMN_REFUSED)) && s.table == old(s.table)
          case Some(p) => o == Sent(Response(200, Record(p))) && s.table == old(s.table)[a.id := p]
  {
    var v := ValidatePutRequest(req);
    if v.Failure? {
      return Next(Invalid(v.error));
    }
    var updated := s.UpdateProperty(v.value.id, v.value.updates);
    match updated
    case Failure(detail) =>
      o := Next(Unexpected(detail));
    case Success(property) =>
      if property.None? {
        o := Sent(NOT_FOUND);
      } else {
        o := Sent(Response(200, Record(property.value)));
      }
  }

  /** DELETE /properties/:id: the row as it was before it was removed, or 404. */
  method DeleteProperty(s: PropertyService, req: Request) returns (o: Outcome)
    requires s.Valid()
    modifies s
    ensures s.Valid() && s.nextId == old(s.nextId)
    ensures match ValidateIdRequest(req)
      case Failure(e) => o == Next(Invalid(e)) && s.table == old(s.table)
      case Success(id) =>
        if id in old(s.table) then o == Sent(Response(200, Record(old(s.table)[id]))) && s.table == old(s.table) - {id}
        else o == Sent(NOT_FOUND) && s.table == old(s.table)
  {
    var v := ValidateIdRequest(req);
    if v.Failure? {
      return Next(Invalid(v.error));
    }
    var deleted := s.DeletePropertyById(v.value);
    if deleted.None? {
      o := Sent(NOT_FOUND);
    } else {
      o := Sent(Response(200, Record(deleted.value)));
    }
  }
}
