/** The one record type of the service and the shapes of its create and update inputs. */
module Entity {
  import opened Wrappers
  import opened Json

  const SMALLINT_MIN := -32768
  const SMALLINT_MAX := 32767

  /** The values a `smallint` column can hold: 16-bit signed integers. */
  type SmallInt = x: int | SMALLINT_MIN <= x <= SMALLINT_MAX

  /**
   * One stored row. `id` is the generated integer primary key, `address` is required text,
   * `price` is an exact decimal, the room counts are smallints and `propertyType` (the
   * column `type`) is the only nullable column.
   */
  datatype Property = Property(
    id: int,
    address: string,
    price: real,
    bedrooms: SmallInt,
    bathrooms: SmallInt,
    propertyType: Option<string>)

  /**
   * What `createProperty` receives: the five creatable fields, with the room counts as the
   * JavaScript numbers the request carried, and `extra` for any other key the object
   * happens to have at run time.
   */
  datatype PropertyInput = PropertyInput(
    address: string,
    price: real,
    bedrooms: real,
    bathrooms: real,
    propertyType: Option<string>,
    extra: Fields)

  /** What `updateProperty` receives: every field optional, `None` for absent or null. */
  datatype PropertyUpdate = PropertyUpdate(
    address: Option<string>,
    price: Option<real>,
    bedrooms: Option<real>,
    bathrooms: Option<real>,
    propertyType: Option<string>)

  /**
   * The value a smallint column stores for the number `x`, or `None` when the column
   * refuses it: the value is stored unchanged, and only integers in the 16-bit signed
   * range are accepted.
   */
  function AsSmallInt(x: real): (r: Option<SmallInt>)
    ensures r.Some? ==> r.value as real == x
    ensures r.None? <==> x.Floor as real != x || x.Floor < SMALLINT_MIN || SMALLINT_MAX < x.Floor
  {
    var n := x.Floor;
    if n as real == x && SMALLINT_MIN <= n <= SMALLINT_MAX then Some(n) else None
  }

  /** Every value a smallint column holds is accepted again unchanged. */
  lemma SmallIntRoundTrip(n: SmallInt)
    ensures AsSmallInt(n as real) == Some(n)
  {
  }
}
