/**
 * The aircraft store: Spring Data's `CrudRepository<Aircraft, String>` as used by the
 * endpoint (`findById`, `save`), and the derived query `findAllByTovGreaterThan`.
 * The store holds values; what `findById` hands out is a new, detached entity, and
 * a change to it reaches the store only through `save`.
 */
module Repository {
  import opened Wrappers
  import opened Primitives
  import opened AircraftEntity

  /** The stored aircraft, keyed by ICAO address (the entity's identifier). */
  type Table = map<string, AircraftRecord>

  /** Every row is stored under its own ICAO address, so there is at most one aircraft per address. */
  ghost predicate KeyedByAddress(table: Table) {
    forall k :: k in table ==> table[k].icaoAddress == Some(k)
  }

  /** `findAllByTovGreaterThan(t)`: the stored aircraft last seen strictly after `t`. */
  function TovGreaterThan(table: Table, t: int): (r: set<AircraftRecord>)
    ensures forall k :: k in table ==> (table[k] in r <==> table[k].tov > t)
    ensures forall a :: a in r ==> a in table.Values && a.tov > t
  {
    set k | k in table && table[k].tov > t :: table[k]
  }

  /** The boundary is strict: an aircraft seen exactly at `t` is left out, one seen a millisecond later is in. */
  lemma StalenessBoundary(table: Table, k: string, t: int)
    requires k in table
    ensures table[k].tov == t ==> table[k] !in TovGreaterThan(table, t)
    ensures table[k].tov == t + 1 ==> table[k] in TovGreaterThan(table, t)
  {
  }

  /** A later cut-off never admits more aircraft. */
  lemma QueryNarrowsWithCutOff(table: Table, t1: int, t2: int)
    requires t1 <= t2
    ensures TovGreaterThan(table, t2) <= TovGreaterThan(table, t1)
  {
  }

  class AircraftRepository {
    var rows: Table

    ghost predicate Valid()
      reads this
    {
      KeyedByAddress(rows)
    }

    constructor ()
      ensures Valid() && rows == map[]
    {
      rows := map[];
    }

    /** `findById`: a new entity loaded from the row stored under `id`, or nothing. */
    method FindById(id: string) returns (found: Option<Aircraft>)
      ensures found.Some? <==> id in rows
      ensures found.Some? ==> fresh(found.value) && found.value.Snapshot() == rows[id]
    {
      if id in rows {
        var row := rows[id];
        var a := new Aircraft.Empty();
        a.SetIcaoAddress(row.icaoAddress);
        a.SetLatitude(row.latitude);
        a.SetLongitude(row.longitude);
        a.SetTov(row.tov);
        a.SetCallSign(row.callSign);
        found := Some(a);
      } else {
        found := None;
      }
    }

    /** `save`: stores the entity's fields under its identifier, inserting or replacing. */
    method Save(a: Aircraft)
      requires Valid()
      requires a.icaoAddress.Some?
      modifies this
      ensures Valid()
      ensures rows == old(rows)[a.icaoAddress.value := a.Snapshot()]
    {
      rows := rows[a.icaoAddress.value := a.Snapshot()];
    }

    /** `findAllByTovGreaterThan`: a read of the store that leaves it as it is. */
    function FindAllByTovGreaterThan(t: Long): (r: set<AircraftRecord>)
      reads this
      ensures r == TovGreaterThan(rows, t)
      ensures forall k :: k in rows ==> (rows[k] in r <==> rows[k].tov > t)
    {
      TovGreaterThan(rows, t)
    }
  }
}
