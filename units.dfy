/**
 * Unit lookup-or-create, done the same way by both import scripts: query the
 * units with the occupancy's property, building and unit number; take the
 * first one found, or add an `Office` unit with status `Occupied`.
 */
module Units {
  import opened Wrappers
  import opened Store

  const NewUnitType := "Office"
  const NewUnitStatus := "Occupied"

  /** `units` holds a unit with id `id` and key (p, b, n). */
  ghost predicate UnitHas(units: seq<Doc<UnitData>>, id: DocId, p: DocId, b: DocId, n: string) {
    exists u | u in units :: u.id == id && UnitKey(u.data, p, b, n)
  }

  /** A unit found in a collection is still there once the collection has grown. */
  lemma UnitHasGrew(units: seq<Doc<UnitData>>, more: seq<Doc<UnitData>>, id: DocId, p: DocId, b: DocId, n: string)
    requires UnitHas(units, id, p, b, n) && Grew(units, more)
    ensures UnitHas(more, id, p, b, n)
  {
    var u :| u in units && u.id == id && UnitKey(u.data, p, b, n);
    var i :| 0 <= i < |units| && units[i] == u;
    assert more[i] == u;
  }

  /** Adding a unit whose key no unit has keeps unit keys unique. */
  lemma UniqueAppend(units: seq<Doc<UnitData>>, d: Doc<UnitData>)
    requires UniqueUnits(units)
    requires forall u | u in units :: !UnitKey(u.data, d.data.propertyId, d.data.buildingId, d.data.unitNumber)
    ensures UniqueUnits(units + [d])
  {
    var r := units + [d];
    forall i, j | 0 <= i < j < |r|
      ensures !UnitKey(r[j].data, r[i].data.propertyId, r[i].data.buildingId, r[i].data.unitNumber)
    {
      assert r[i] == units[i];
      if j == |units| {
        assert units[i] in units;
      } else {
        assert r[j] == units[j];
      }
    }
  }

  /**
   * `units'` and `id` are what looking up the unit (p, b, n) in `units` gives:
   * the first unit with that key and no write, or, when there is none, one
   * new `Office` unit with status `Occupied` appended under `id`.
   */
  ghost predicate LookedUp(units: seq<Doc<UnitData>>, units': seq<Doc<UnitData>>, p: DocId, b: DocId, n: string, id: DocId) {
    if UnitsAt(units, p, b, n) != [] then units' == units && id == UnitsAt(units, p, b, n)[0].id
    else units' == units + [Doc(id, UnitData(p, b, n, NewUnitType, NewUnitStatus))]
  }

  /**
   * A lookup that may have stopped half-way: either nothing was written, or
   * the key was missing and its one new `Office`/`Occupied` unit was appended.
   */
  ghost predicate AtMostCreated(units: seq<Doc<UnitData>>, units': seq<Doc<UnitData>>, p: DocId, b: DocId, n: string) {
    units' == units
    || (UnitsAt(units, p, b, n) == [] && |units'| == |units| + 1 && Grew(units, units')
        && units'[|units|].data == UnitData(p, b, n, NewUnitType, NewUnitStatus))
  }

  /** The unit data after looking up (p, b, n) in `us`: unchanged when a unit has that key, else one new unit. */
  ghost function UnitsAfter(us: seq<UnitData>, p: DocId, b: DocId, n: string): seq<UnitData> {
    if exists u | u in us :: UnitKey(u, p, b, n) then us else us + [UnitData(p, b, n, NewUnitType, NewUnitStatus)]
  }

  /** The unit data after looking up each (building, unit number) of `keys` in turn, in property `p`. */
  ghost function UnitsFor(us: seq<UnitData>, p: DocId, keys: seq<(DocId, string)>): seq<UnitData>
    decreases |keys|
  {
    if keys == [] then us
    else
      var k := keys[|keys| - 1];
      UnitsAfter(UnitsFor(us, p, keys[..|keys| - 1]), p, k.0, k.1)
  }

  /** A lookup seen on the data alone: the units' data become `UnitsAfter` of the old data. */
  lemma LookedUpData(units: seq<Doc<UnitData>>, units': seq<Doc<UnitData>>, p: DocId, b: DocId, n: string, id: DocId)
    requires LookedUp(units, units', p, b, n, id)
    ensures Data(units') == UnitsAfter(Data(units), p, b, n)
  {
    UnitsAtMembers(units, p, b, n);
    if UnitsAt(units, p, b, n) != [] {
      var d := UnitsAt(units, p, b, n)[0];
      var i :| 0 <= i < |units| && units[i] == d;
      assert Data(units)[i] == d.data;
    } else {
      DataAppend(units, [Doc(id, UnitData(p, b, n, NewUnitType, NewUnitStatus))]);
      forall u | u in Data(units)
        ensures !UnitKey(u, p, b, n)
      {
        var i :| 0 <= i < |units| && Data(units)[i] == u;
        assert units[i] in units;
      }
    }
  }

  /** One more key extends the fold by one lookup. */
  lemma UnitsForSnoc(us: seq<UnitData>, p: DocId, keys: seq<(DocId, string)>, b: DocId, n: string)
    ensures UnitsFor(us, p, keys + [(b, n)]) == UnitsAfter(UnitsFor(us, p, keys), p, b, n)
  {
    assert (keys + [(b, n)])[..|keys|] == keys;
  }

  /** Every key of `keys` has a unit in `vs`. */
  ghost predicate Covers(vs: seq<UnitData>, p: DocId, keys: seq<(DocId, string)>) {
    forall k | k in keys :: exists u | u in vs :: UnitKey(u, p, k.0, k.1)
  }

  /** The lookups only append, and afterwards every key looked up has a unit. */
  lemma {:induction false} UnitsForCovers(us: seq<UnitData>, p: DocId, keys: seq<(DocId, string)>)
    ensures us <= UnitsFor(us, p, keys)
    ensures Covers(UnitsFor(us, p, keys), p, keys)
  {
    if keys != [] {
      var init, k := keys[..|keys| - 1], keys[|keys| - 1];
      UnitsForCovers(us, p, init);
      var r0 := UnitsFor(us, p, init);
      var r := UnitsAfter(r0, p, k.0, k.1);
      assert r0 <= r;
      forall k' | k' in keys
        ensures exists u | u in r :: UnitKey(u, p, k'.0, k'.1)
      {
        if k' in init {
          var u :| u in r0 && UnitKey(u, p, k'.0, k'.1);
          var j :| 0 <= j < |r0| && r0[j] == u;
          assert r[j] == u;
        } else {
          assert keys == init + [k] && k' == k;
          if !exists u | u in r0 :: UnitKey(u, p, k.0, k.1) {
            assert r[|r0|] == UnitData(p, k.0, k.1, NewUnitType, NewUnitStatus);
            assert r[|r0|] in r;
          }
        }
      }
    }
  }

  /** Lookups of keys that all have a unit create nothing. */
  lemma {:induction false} UnitsForCovered(vs: seq<UnitData>, p: DocId, keys: seq<(DocId, string)>)
    requires Covers(vs, p, keys)
    ensures UnitsFor(vs, p, keys) == vs
  {
    if keys != [] {
      var init, k := keys[..|keys| - 1], keys[|keys| - 1];
      assert forall k' | k' in init :: k' in keys;
      UnitsForCovered(vs, p, init);
    }
  }

  /**
   * Units are looked up or created by their natural key, so running the
   * same lookups again on their result creates no unit.
   */
  lemma UnitsForIdempotent(us: seq<UnitData>, p: DocId, keys: seq<(DocId, string)>)
    ensures UnitsFor(UnitsFor(us, p, keys), p, keys) == UnitsFor(us, p, keys)
  {
    UnitsForCovers(us, p, keys);
    UnitsForCovered(UnitsFor(us, p, keys), p, keys);
  }

  /**
   * The unit for an occupancy with unit number `n` in building `b` of
   * property `p`: the first existing unit with that key, or a new one.
   */
  method FindOrCreateUnit(db: Db, p: DocId, b: DocId, n: string) returns (r: Result<DocId, StoreError>)
    requires db.Valid()
    modifies db`calls, db`nextId, db`units
    ensures db.Valid()
    ensures db.faults == {} ==> r.Success?
    ensures Grew(old(db.units), db.units)
    ensures r.Success? ==> UnitHas(db.units, r.value, p, b, n)
    ensures r.Success? && UnitsAt(old(db.units), p, b, n) != [] ==>
      db.units == old(db.units) && r.value == UnitsAt(old(db.units), p, b, n)[0].id
    ensures r.Success? && UnitsAt(old(db.units), p, b, n) == [] ==>
      db.units == old(db.units) + [Doc(r.value, UnitData(p, b, n, NewUnitType, NewUnitStatus))]
    ensures r.Failure? ==> db.units == old(db.units)
    ensures r.Success? ==> LookedUp(old(db.units), db.units, p, b, n, r.value)
    ensures UniqueUnits(old(db.units)) ==> UniqueUnits(db.units)
    ensures old(db.calls) <= db.calls && (r.Failure? <==> Faulted(db.faults, old(db.calls), db.calls))
  {
    var found := db.QueryUnits(p, b, n);
    if found.Failure? {
      return Failure(found.error);
    }
    UnitsAtMembers(db.units, p, b, n);
    if found.value != [] {
      assert found.value[0] in found.value;
      return Success(found.value[0].id);
    }
    var added := db.AddUnit(UnitData(p, b, n, NewUnitType, NewUnitStatus));
    FaultedJoin(db.faults, old(db.calls), old(db.calls) + 1, db.calls);
    if added.Failure? {
      return Failure(added.error);
    }
    var d := Doc(added.value, UnitData(p, b, n, NewUnitType, NewUnitStatus));
    assert d in db.units;
    if UniqueUnits(old(db.units)) {
      UniqueAppend(old(db.units), d);
    }
    r := added;
  }
}
