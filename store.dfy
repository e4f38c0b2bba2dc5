/**
 * The property service over an in-memory table that stands in for the database.
 *
 * Results of the collection query come in ascending id order. The query itself names no
 * order; ascending id is an assumption of this model, and the one the pagination examples
 * of the service's tests rely on.
 */
module PropertyStore {
  import opened Wrappers
  import opened Entity

  /** The stored rows, keyed by primary key. */
  type Table = map<int, Property>

  /** The message of the failure a save reports when a smallint column refuses a value. */
  const COLUMN_REFUSED := "value does not fit a smallint column"

  function Min(a: int, b: int): int { if a <= b then a else b }

  /** Each row is stored under its own id. */
  ghost predicate KeyedById(t: Table) {
    forall id :: id in t ==> t[id].id == id
  }

  predicate IdsAscending(s: seq<Property>) {
    forall i, j :: 0 <= i < j < |s| ==> s[i].id < s[j].id
  }

  /** The inclusive price filter; an absent bound filters nothing. */
  predicate InRange(price: real, min: Option<real>, max: Option<real>) {
    (min.None? || min.value <= price) && (max.None? || price <= max.value)
  }

  /** The rows with ids 1..n, in ascending id order. */
  function RowsUpTo(t: Table, n: int): (r: seq<Property>)
    requires KeyedById(t)
    ensures IdsAscending(r)
    ensures forall i :: 0 <= i < |r| ==> 1 <= r[i].id <= n && r[i].id in t && t[r[i].id] == r[i]
    decreases n
  {
    if n <= 0 then [] else RowsUpTo(t, n - 1) + (if n in t then [t[n]] else [])
  }

  /** No row with an id in 1..n is missing from the listing. */
  lemma {:induction false} RowsUpToComplete(t: Table, n: int, id: int)
    requires KeyedById(t)
    requires id in t && 1 <= id <= n
    ensures t[id] in RowsUpTo(t, n)
    decreases n
  {
    if id < n {
      RowsUpToComplete(t, n - 1, id);
    }
  }

  /** The rows of `rows` whose price lies in the range, in their original order. */
  function Matching(rows: seq<Property>, min: Option<real>, max: Option<real>): (r: seq<Property>)
    ensures forall p :: p in r <==> p in rows && InRange(p.price, min, max)
    ensures IdsAscending(rows) ==> IdsAscending(r)
  {
    if rows == [] then []
    else
      var rest := Matching(rows[1..], min, max);
      assert forall p :: p in rows <==> p == rows[0] || p in rows[1..];
      if InRange(rows[0].price, min, max) then [rows[0]] + rest else rest
  }

  /** How many matching rows come before page `page` of size `limit`. */
  function Offset(page: int, limit: int): (skip: nat)
    requires page >= 1 && limit >= 1
  {
    (page - 1) * limit
  }

  /** Skip `skip` rows, then take at most `limit`. */
  function Page(s: seq<Property>, skip: nat, limit: nat): (r: seq<Property>)
    ensures |r| == if skip >= |s| then 0 else Min(limit, |s| - skip)
    ensures forall i :: 0 <= i < |r| ==> r[i] == s[skip + i]
  {
    if skip >= |s| then [] else s[skip..skip + Min(limit, |s| - skip)]
  }

  /** A page holds rows of the sequence it is cut from, in the same order. */
  lemma PageOfAscending(s: seq<Property>, skip: nat, limit: nat)
    ensures forall p :: p in Page(s, skip, limit) ==> p in s
    ensures IdsAscending(s) ==> IdsAscending(Page(s, skip, limit))
  {
    var r := Page(s, skip, limit);
    forall p | p in r ensures p in s {
      var i :| 0 <= i < |r| && r[i] == p;
      assert s[skip + i] == p;
    }
  }

  /**
   * The row `save` stores for a new property under the generated `id`: only the five
   * creatable fields are copied; `None` when a smallint column refuses a room count.
   */
  function InsertedRow(id: int, input: PropertyInput): (r: Option<Property>)
    ensures r.Some? <==> AsSmallInt(input.bedrooms).Some? && AsSmallInt(input.bathrooms).Some?
    ensures r.Some? ==> r.value.id == id
    ensures r.Some? ==> && r.value.address == input.address && r.value.price == input.price
                        && r.value.bedrooms as real == input.bedrooms
                        && r.value.bathrooms as real == input.bathrooms
                        && r.value.propertyType == input.propertyType
  {
    var bedrooms, bathrooms := AsSmallInt(input.bedrooms), AsSmallInt(input.bathrooms);
    if bedrooms.None? || bathrooms.None? then None
    else Some(Property(id, input.address, input.price, bedrooms.value, bathrooms.value, input.propertyType))
  }

  /** Whatever else the input object carries has no effect on the stored row. */
  lemma InsertIgnoresExtraFields(id: int, input: PropertyInput, extra: Json.Fields)
    ensures InsertedRow(id, input.(extra := extra)) == InsertedRow(id, input)
  {
  }

  /**
   * The row `updateProperty` saves: each field given in the update replaces the stored
   * one, each field not given keeps its value, and the id never changes; `None` when a
   * smallint column refuses a new room count.
   */
  function Merged(p: Property, u: PropertyUpdate): (r: Option<Property>)
    ensures r.Some? <==> && (u.bedrooms.None? || AsSmallInt(u.bedrooms.value).Some?)
                         && (u.bathrooms.None? || AsSmallInt(u.bathrooms.value).Some?)
    ensures r.Some? ==> r.value.id == p.id
    ensures r.Some? ==> && (u.address.Some? ==> r.value.address == u.address.value)
                        && (u.address.None? ==> r.value.address == p.address)
                        && (u.price.Some? ==> r.value.price == u.price.value)
                        && (u.price.None? ==> r.value.price == p.price)
                        && (u.bedrooms.Some? ==> r.value.bedrooms as real == u.bedrooms.value)
                        && (u.bedrooms.None? ==> r.value.bedrooms == p.bedrooms)
                        && (u.bathrooms.Some? ==> r.value.bathrooms as real == u.bathrooms.value)
                        && (u.bathrooms.None? ==> r.value.bathrooms == p.bathrooms)
                        && (u.propertyType.Some? ==> r.value.propertyType == u.propertyType)
                        && (u.propertyType.None? ==> r.value.propertyType == p.propertyType)
  {
    var bedrooms := if u.bedrooms.Some? then AsSmallInt(u.bedrooms.value) else Some(p.bedrooms);
    var bathrooms := if u.bathrooms.Some? then AsSmallInt(u.bathrooms.value) else Some(p.bathrooms);
    if bedrooms.None? || bathrooms.None? then None
    else
      Some(p.(address := if u.address.Some? then u.address.value else p.address,
              price := if u.price.Some? then u.price.value else p.price,
              bedrooms := bedrooms.value,
              bathrooms := bathrooms.value,
              propertyType := if u.propertyType.Some? then u.propertyType else p.propertyType))
  }

  /** An update that gives no field saves the row as it was. */
  lemma EmptyUpdateKeepsRow(p: Property)
    ensures Merged(p, PropertyUpdate(None, None, None, None, None)) == Some(p)
  {
  }

  /** Applying the same update twice saves the same row as applying it once. */
  lemma MergeIdempotent(p: Property, u: PropertyUpdate)
    requires Merged(p, u).Some?
    ensures Merged(Merged(p, u).value, u) == Merged(p, u)
  {
    var q := Merged(p, u).value;
    assert u.bedrooms.Some? ==> AsSmallInt(u.bedrooms.value) == Some(q.bedrooms);
    assert u.bathrooms.Some? ==> AsSmallInt(u.bathrooms.value) == Some(q.bathrooms);
  }

  /** An update that gives all five fields leaves nothing of the old row but its id. */
  lemma FullUpdateReplacesAll(p: Property, q: Property)
    requires q.propertyType.Some?
    ensures Merged(p, PropertyUpdate(Some(q.address), Some(q.price), Some(q.bedrooms as real),
                                     Some(q.bathrooms as real), q.propertyType))
            == Some(q.(id := p.id))
  {
    SmallIntRoundTrip(q.bedrooms);
    SmallIntRoundTrip(q.bathrooms);
  }

  /** No update clears the nullable `type` column once it holds a value. */
  lemma TypeNeverCleared(p: Property, u: PropertyUpdate)
    requires p.propertyType.Some? && Merged(p, u).Some?
    ensures Merged(p, u).value.propertyType.Some?
  {
  }

  class PropertyService {
    /** The rows of the property table. */
    var table: Table
    /** The next value of the primary-key sequence. */
    var nextId: int

    ghost predicate Valid()
      reads this
    {
      && 1 <= nextId
      && KeyedById(table)
      && forall id :: id in table ==> 1 <= id < nextId
    }

    /**
     * A service bound to the shared table as it stands: it neither empties nor reseeds the
     * rows, and the key sequence goes on from where it is. The two requirements are the
     * table's own invariants: each row is stored under its primary key, and the sequence
     * is past every key it has handed out.
     */
    constructor (rows: Table, next: int)
      requires KeyedById(rows)
      requires 1 <= next && forall id :: id in rows ==> 1 <= id < next
      ensures Valid() && table == rows && nextId == next
    {
      table := rows;
      nextId := next;
    }

    /** `findPropertyById`: the row with that id, or `None`; it reads and changes nothing. */
    function FindPropertyById(id: int): (r: Option<Property>)
      reads this
      requires Valid()
      ensures r.Some? <==> id in table
      ensures r.Some? ==> r.value.id == id && r.value == table[id]
    {
      if id in table then Some(table[id]) else None
    }

    /** Stored rows, each at most once, in ascending id order (all of them: `AllRowsListed`). */
    function Rows(): (r: seq<Property>)
      reads this
      requires Valid()
      ensures IdsAscending(r)
      ensures forall i :: 0 <= i < |r| ==> r[i].id in table && table[r[i].id] == r[i]
    {
      RowsUpTo(table, nextId - 1)
    }

    /**
     * Stored rows whose price lies in the range, in ascending id order (all of them:
     * `AllRowsInRangeListed`).
     */
    function RowsInRange(min: Option<real>, max: Option<real>): (r: seq<Property>)
      reads this
      requires Valid()
      ensures IdsAscending(r)
      ensures forall p :: p in r ==> p.id in table && table[p.id] == p && InRange(p.price, min, max)
    {
      var rows := Rows();
      assert forall p :: p in rows ==> p.id in table && table[p.id] == p;
      Matching(rows, min, max)
    }

    /**
     * `findProperties`: of the rows in the price range, skip `(page - 1) * limit` and
     * return at most `limit`.
     */
    function FindProperties(page: int, limit: int, min: Option<real>, max: Option<real>): (r: seq<Property>)
      reads this
      requires Valid()
      requires page >= 1 && limit >= 1
      ensures |r| <= limit
      ensures var m, skip := RowsInRange(min, max), Offset(page, limit);
              && |r| == (if skip >= |m| then 0 else Min(limit, |m| - skip))
              && forall i :: 0 <= i < |r| ==> r[i] == m[skip + i]
      ensures forall p :: p in r ==> p.id in table && table[p.id] == p && InRange(p.price, min, max)
      ensures IdsAscending(r)
    {
      var m := RowsInRange(min, max);
      PageOfAscending(m, Offset(page, limit), limit);
      Page(m, Offset(page, limit), limit)
    }

    /**
     * `createProperty`: store the five creatable fields under a new id and return the
     * stored row; when the database refuses a value, nothing is stored.
     */
    method CreateProperty(input: PropertyInput) returns (r: Result<Property, string>)
      requires Valid()
      modifies this
      ensures Valid()
      ensures match InsertedRow(old(nextId), input)
        case None => r == Failure(COLUMN_REFUSED) && table == old(table) && nextId == old(nextId)
        case Some(p) => && r == Success(p)
                        && p.id !in old(table)
                        && table == old(table)[p.id := p]
                        && nextId == old(nextId) + 1
    {
      var bedrooms, bathrooms := AsSmallInt(input.bedrooms), AsSmallInt(input.bathrooms);
      if bedrooms.None? || bathrooms.None? {
        return Failure(COLUMN_REFUSED);
      }
      var created := Property(nextId, input.address, input.price, bedrooms.value, bathrooms.value,
                              input.propertyType);
      table := table[nextId := created];
      nextId := nextId + 1;
      r := Success(created);
    }

    /**
     * `updateProperty`: `Success(None)` and no change for an absent id; otherwise the
     * loaded row takes each given field in turn and is saved back under its id.
     */
    method UpdateProperty(id: int, updates: PropertyUpdate) returns (r: Result<Option<Property>, string>)
      requires Valid()
      modifies this
      ensures Valid() && nextId == old(nextId)
      ensures id !in old(table) ==> r == Success(None) && table == old(table)
      ensures id in old(table) ==> match Merged(old(table)[id], updates)
        case None => r == Failure(COLUMN_REFUSED) && table == old(table)
        case Some(p) => r == Success(Some(p)) && table == old(table)[id := p]
    {
      var found := FindPropertyById(id);
      if found.None? {
        return Success(None);
      }
      var row := found.value;
      var address, price, propertyType := row.address, row.price, row.propertyType;
      var bedrooms, bathrooms := row.bedrooms as real, row.bathrooms as real;
      if updates.address.Some? {
        address := updates.address.value;
      }
      if updates.price.Some? {
        price := updates.price.value;
      }
      if updates.bedrooms.Some? {
        bedrooms := updates.bedrooms.value;
      }
      if updates.bathrooms.Some? {
        bathrooms := updates.bathrooms.value;
      }
      if updates.propertyType.Some? {
        propertyType := updates.propertyType;
      }
      var savedBedrooms, savedBathrooms := AsSmallInt(bedrooms), AsSmallInt(bathrooms);
      if savedBedrooms.None? || savedBathrooms.None? {
        return Failure(COLUMN_REFUSED);
      }
      var saved := Property(id, address, price, savedBedrooms.value, savedBathrooms.value, propertyType);
      table := table[id := saved];
      r := Success(Some(saved));
    }

    /**
     * `deletePropertyById`: remove the row and return it as it was, or return `None` and
     * change nothing when there is no such row.
     */
    method DeletePropertyById(id: int) returns (r: Option<Property>)
      requires Valid()
      modifies this
      ensures Valid() && nextId == old(nextId)
      ensures id in old(table) ==> r == Some(old(table)[id]) && table == old(table) - {id}
      ensures id !in old(table) ==> r == None && table == old(table)
      ensures id !in table
    {
      r := FindPropertyById(id);
      if r.Some? {
        table := table - {id};
      }
    }
  }

  /** The ids of `s` are 1, 2, ..., |s|. */
  predicate NumberedFromOne(s: seq<Property>) {
    forall i :: 0 <= i < |s| ==> s[i].id == i + 1
  }

  /** Every stored row is listed. */
  lemma AllRowsListed(s: PropertyService, id: int)
    requires s.Valid() && id in s.table
    ensures s.table[id] in s.Rows()
  {
    RowsUpToComplete(s.table, s.nextId - 1, id);
  }

  /** Every stored row whose price lies in the range is listed by the filter. */
  lemma AllRowsInRangeListed(s: PropertyService, id: int, min: Option<real>, max: Option<real>)
    requires s.Valid() && id in s.table && InRange(s.table[id].price, min, max)
    ensures s.table[id] in s.RowsInRange(min, max)
  {
    AllRowsListed(s, id);
  }

  /** A table seeded with the ids 1..count lists them in order. */
  lemma {:induction false} ContiguousRows(t: Table, count: nat, n: int)
    requires KeyedById(t)
    requires forall id :: id in t <==> 1 <= id <= count
    requires n >= 0
    ensures |RowsUpTo(t, n)| == Min(n, count)
    ensures NumberedFromOne(RowsUpTo(t, n))
    decreases n
  {
    if n > 0 {
      ContiguousRows(t, count, n - 1);
    }
  }

  /** A range with neither bound keeps every row. */
  lemma {:induction false} NoBoundsKeepsAll(rows: seq<Property>)
    ensures Matching(rows, None, None) == rows
  {
    if rows != [] {
      NoBoundsKeepsAll(rows[1..]);
    }
  }

  /** Rows numbered 1.. keep their numbering when a page is cut from them. */
  lemma SeededSlice(m: seq<Property>, skip: nat, limit: nat)
    requires NumberedFromOne(m)
    ensures forall i :: 0 <= i < |Page(m, skip, limit)| ==> Page(m, skip, limit)[i].id == skip + i + 1
  {
  }

  /** Over a table seeded with the ids 1..count, the unfiltered rows are numbered 1..count. */
  lemma SeededRows(s: PropertyService, count: nat)
    requires s.Valid()
    requires forall id :: id in s.table <==> 1 <= id <= count
    ensures |s.RowsInRange(None, None)| == count && NumberedFromOne(s.RowsInRange(None, None))
  {
    assert s.nextId - 1 >= count by {
      assert count >= 1 ==> count in s.table;
    }
    ContiguousRows(s.table, count, s.nextId - 1);
    var rows := s.Rows();
    assert rows == RowsUpTo(s.table, s.nextId - 1);
    NoBoundsKeepsAll(rows);
    assert s.RowsInRange(None, None) == Matching(rows, None, None);
  }

  /**
   * Over a table seeded with the ids 1..count and no price bounds, page `page` of size
   * `limit` holds exactly the ids `(page - 1) * limit + 1` up to the smaller of
   * `page * limit` and `count`; a page past the end is empty.
   */
  lemma SeededPage(s: PropertyService, count: nat, page: int, limit: int)
    requires s.Valid()
    requires forall id :: id in s.table <==> 1 <= id <= count
    requires page >= 1 && limit >= 1
    ensures var r, skip := s.FindProperties(page, limit, None, None), Offset(page, limit);
            && |r| == (if skip >= count then 0 else Min(limit, count - skip))
            && forall i :: 0 <= i < |r| ==> r[i].id == skip + i + 1
  {
    SeededRows(s, count);
    var m, skip := s.RowsInRange(None, None), Offset(page, limit);
    SeededSlice(m, skip, limit);
    assert s.FindProperties(page, limit, None, None) == Page(m, skip, limit);
  }

  /** The four pagination examples over 126 seeded rows. */
  lemma SeededPagesOf126(s: PropertyService)
    requires s.Valid()
    requires forall id :: id in s.table <==> 1 <= id <= 126
    ensures var r := s.FindProperties(1, 10, None, None);
            |r| == 10 && forall i :: 0 <= i < 10 ==> r[i].id == i + 1
    ensures var r := s.FindProperties(2, 10, None, None);
            |r| == 10 && forall i :: 0 <= i < 10 ==> r[i].id == 11 + i
    ensures var r := s.FindProperties(2, 120, None, None);
            |r| == 6 && forall i :: 0 <= i < 6 ==> r[i].id == 121 + i
    ensures s.FindProperties(14, 10, None, None) == []
  {
    SeededPage(s, 126, 1, 10);
    SeededPage(s, 126, 2, 10);
    SeededPage(s, 126, 2, 120);
    SeededPage(s, 126, 14, 10);
  }

  /** When some stored row's price lies in the range, the first page is not empty. */
  lemma FirstPageFindsMatch(s: PropertyService, id: int, limit: int, min: Option<real>, max: Option<real>)
    requires s.Valid()
    requires id in s.table && InRange(s.table[id].price, min, max)
    requires limit >= 1
    ensures |s.FindProperties(1, limit, min, max)| >= 1
  {
    AllRowsInRangeListed(s, id, min, max);
  }
}
