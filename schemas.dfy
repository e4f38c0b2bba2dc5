/**
 * The five request schemas of the property routes, as predicates over a request, and the
 * validators the handlers call, which either return the validated values or fail with a
 * validation error.
 *
 * A validator stops at the first violation, so a failure carries one per-field message,
 * which is also its message. Which field is reported when several are wrong, and the
 * wording, are stand-ins: the model reports the first violated field in declaration
 * order and names it by its path.
 */
module Schemas {
  import opened Wrappers
  import opened Json
  import opened Entity
  import opened Http

  /** The only keys a create or update body may have. */
  const PROPERTY_KEYS: set<string> := {"address", "price", "bedrooms", "bathrooms", "type"}

  predicate IsInteger(v: Value) {
    v.Num? && v.n.Floor as real == v.n
  }

  // One predicate per field rule the schemas use. A rule on a missing key is met exactly
  // when the rule is optional; null is refused wherever the rule does not say nullable.

  /** number().integer().min(lo).required() */
  predicate RequiredIntegerAtLeast(m: Fields, key: string, lo: int) {
    key in m && IsInteger(m[key]) && lo as real <= m[key].n
  }

  /** number().integer().min(lo) */
  predicate OptionalIntegerAtLeast(m: Fields, key: string, lo: int) {
    key !in m || (IsInteger(m[key]) && lo as real <= m[key].n)
  }

  /** number().integer() */
  predicate OptionalInteger(m: Fields, key: string) {
    key !in m || IsInteger(m[key])
  }

  /** string().required() under strict(): a string, and not the empty one */
  predicate RequiredString(m: Fields, key: string) {
    key in m && m[key].Str? && m[key].s != ""
  }

  /** string().required().nullable() under strict(): a non-empty string or null */
  predicate RequiredNullableString(m: Fields, key: string) {
    key in m && (m[key].Null? || (m[key].Str? && m[key].s != ""))
  }

  /** number().required() under strict(): already a number */
  predicate RequiredNumber(m: Fields, key: string) {
    key in m && m[key].Num?
  }

  /** string() under strict() */
  predicate OptionalString(m: Fields, key: string) {
    key !in m || m[key].Str?
  }

  /** number() under strict() */
  predicate OptionalNumber(m: Fields, key: string) {
    key !in m || m[key].Num?
  }

  /** PropertiesGetRequestSchema: no relation between the two price bounds is checked. */
  predicate GetRequestValid(req: Request) {
    var q := req.query;
    && RequiredIntegerAtLeast(q, "page", 1)
    && RequiredIntegerAtLeast(q, "limit", 1)
    && OptionalIntegerAtLeast(q, "minPrice", 0)
    && OptionalInteger(q, "maxPrice")
  }

  /** PropertiesGetByIdRequestSchema and PropertiesDeleteRequestSchema: a path id. */
  predicate IdRequestValid(req: Request) {
    RequiredIntegerAtLeast(req.params, "id", 1)
  }

  /** PropertiesPostRequestSchema: a body with all five fields and nothing else. */
  predicate PostRequestValid(req: Request) {
    && req.body.Some?
    && var b := req.body.value;
    && b.Keys <= PROPERTY_KEYS
    && RequiredString(b, "address")
    && RequiredNumber(b, "price")
    && RequiredNumber(b, "bedrooms")
    && RequiredNumber(b, "bathrooms")
    && RequiredNullableString(b, "type")
  }

  /** PropertiesPutRequestSchema: a path id and a body of optional fields, nothing else. */
  predicate PutRequestValid(req: Request) {
    && IdRequestValid(req)
    && req.body.Some?
    && var b := req.body.value;
    && b.Keys <= PROPERTY_KEYS
    && OptionalString(b, "address")
    && OptionalNumber(b, "price")
    && OptionalNumber(b, "bedrooms")
    && OptionalNumber(b, "bathrooms")
    && OptionalString(b, "type")
  }

  /** A failure as validation with early abort reports it. */
  predicate SingleViolation(e: ValidationError) {
    e.errors == [e.message]
  }

  function Reject<T>(path: string): (r: Result<T, ValidationError>)
    ensures r.Failure? && SingleViolation(r.error)
  {
    Failure(ValidationError(path, [path]))
  }

  /** The value of an optional number field, `None` when the key is absent. */
  function NumberOrAbsent(m: Fields, key: string): Option<real>
    requires key in m ==> m[key].Num?
  {
    if key in m then Some(m[key].n) else None
  }

  /** The validated query of the collection route. */
  datatype PropertiesQuery = PropertiesQuery(page: int, limit: int, minPrice: Option<real>, maxPrice: Option<real>)

  function ValidateGetRequest(req: Request): (r: Result<PropertiesQuery, ValidationError>)
    ensures r.Success? <==> GetRequestValid(req)
    ensures r.Failure? ==> SingleViolation(r.error)
    ensures r.Success? ==> && 1 <= r.value.page && r.value.page as real == req.query["page"].n
                           && 1 <= r.value.limit && r.value.limit as real == req.query["limit"].n
                           && r.value.minPrice == NumberOrAbsent(req.query, "minPrice")
                           && r.value.maxPrice == NumberOrAbsent(req.query, "maxPrice")
  {
    var q := req.query;
    if !RequiredIntegerAtLeast(q, "page", 1) then Reject("query.page")
    else if !RequiredIntegerAtLeast(q, "limit", 1) then Reject("query.limit")
    else if !OptionalIntegerAtLeast(q, "minPrice", 0) then Reject("query.minPrice")
    else if !OptionalInteger(q, "maxPrice") then Reject("query.maxPrice")
    else
      Success(PropertiesQuery(q["page"].n.Floor, q["limit"].n.Floor,
                              NumberOrAbsent(q, "minPrice"), NumberOrAbsent(q, "maxPrice")))
  }

  /** The validated path id of the get-by-id, update and delete routes. */
  function ValidateIdRequest(req: Request): (r: Result<int, ValidationError>)
    ensures r.Success? <==> IdRequestValid(req)
    ensures r.Failure? ==> SingleViolation(r.error)
    ensures r.Success? ==> 1 <= r.value && r.value as real == req.params["id"].n
  {
    if !RequiredIntegerAtLeast(req.params, "id", 1) then Reject("params.id")
    else Success(req.params["id"].n.Floor)
  }

  function ValidatePostRequest(req: Request): (r: Result<PropertyInput, ValidationError>)
    ensures r.Success? <==> PostRequestValid(req)
    ensures r.Failure? ==> SingleViolation(r.error)
    ensures r.Success? ==> var b := req.body.value;
                           && r.value.address == b["address"].s
                           && r.value.price == b["price"].n
                           && r.value.bedrooms == b["bedrooms"].n
                           && r.value.bathrooms == b["bathrooms"].n
                           && r.value.propertyType == (if b["type"].Null? then None else Some(b["type"].s))
                           && r.value.extra == map[]
  {
    if req.body.None? then Reject("body")
    else
      var b := req.body.value;
      if !(b.Keys <= PROPERTY_KEYS) then Reject("body")
      else if !RequiredString(b, "address") then Reject("body.address")
      else if !RequiredNumber(b, "price") then Reject("body.price")
      else if !RequiredNumber(b, "bedrooms") then Reject("body.bedrooms")
      else if !RequiredNumber(b, "bathrooms") then Reject("body.bathrooms")
      else if !RequiredNullableString(b, "type") then Reject("body.type")
      else
        Success(PropertyInput(b["address"].s, b["price"].n, b["bedrooms"].n, b["bathrooms"].n,
                              if b["type"].Null? then None else Some(b["type"].s),
                              b - PROPERTY_KEYS))
  }

  /** The validated path id and update of the update route. */
  datatype PutArgs = PutArgs(id: int, updates: PropertyUpdate)

  function ValidatePutRequest(req: Request): (r: Result<PutArgs, ValidationError>)
    ensures r.Success? <==> PutRequestValid(req)
    ensures r.Failure? ==> SingleViolation(r.error)
    ensures r.Success? ==> var b, u := req.body.value, r.value.updates;
                           && 1 <= r.value.id && r.value.id as real == req.params["id"].n
                           && (u.address.Some? <==> "address" in b)
                           && (u.price.Some? <==> "price" in b)
                           && (u.bedrooms.Some? <==> "bedrooms" in b)
                           && (u.bathrooms.Some? <==> "bathrooms" in b)
                           && (u.propertyType.Some? <==> "type" in b)
                           && ("address" in b ==> u.address.value == b["address"].s)
                           && ("price" in b ==> u.price.value == b["price"].n)
                           && ("bedrooms" in b ==> u.bedrooms.value == b["bedrooms"].n)
                           && ("bathrooms" in b ==> u.bathrooms.value == b["bathrooms"].n)
                           && ("type" in b ==> u.propertyType.value == b["type"].s)
  {
    if !RequiredIntegerAtLeast(req.params, "id", 1) then Reject("params.id")
    else if req.body.None? then Reject("body")
    else
      var b := req.body.value;
      if !(b.Keys <= PROPERTY_KEYS) then Reject("body")
      else if !OptionalString(b, "address") then Reject("body.address")
      else if !OptionalNumber(b, "price") then Reject("body.price")
      else if !OptionalNumber(b, "bedrooms") then Reject("body.bedrooms")
      else if !OptionalNumber(b, "bathrooms") then Reject("body.bathrooms")
      else if !OptionalString(b, "type") then Reject("body.type")
      else
        Success(PutArgs(req.params["id"].n.Floor,
                        PropertyUpdate(
                          if "address" in b then Some(b["address"].s) else None,
                          NumberOrAbsent(b, "price"),
                          NumberOrAbsent(b, "bedrooms"),
                          NumberOrAbsent(b, "bathrooms"),
                          if "type" in b then Some(b["type"].s) else None)))
  }

  /**
   * The collection query accepts any lower price bound above the upper one: no rule relates
   * the two, and the validated query carries both as sent.
   */
  lemma PriceBoundsUnrelated(page: int, limit: int, minPrice: int, maxPrice: int)
    requires page >= 1 && limit >= 1
    requires 0 <= minPrice && maxPrice < minPrice
    ensures var req := Request(map["page" := Num(page as real), "limit" := Num(limit as real),
                                   "minPrice" := Num(minPrice as real), "maxPrice" := Num(maxPrice as real)],
                               map[], None);
            && GetRequestValid(req)
            && ValidateGetRequest(req) == Success(PropertiesQuery(page, limit, Some(minPrice as real), Some(maxPrice as real)))
  {
  }

  /** An empty update body is valid; the POST schema refuses it. */
  lemma EmptyBodyValidOnlyForUpdate(params: Fields)
    requires RequiredIntegerAtLeast(params, "id", 1)
    ensures PutRequestValid(Request(map[], params, Some(map[])))
    ensures !PostRequestValid(Request(map[], params, Some(map[])))
  {
  }

  /** Strict mode: a number sent as a string is refused, not converted. */
  lemma NoCoercion(b: Fields)
    requires "price" in b && b["price"].Str?
    ensures !PostRequestValid(Request(map[], map[], Some(b)))
    ensures forall params :: !PutRequestValid(Request(map[], params, Some(b)))
  {
  }
}
