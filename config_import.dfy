/**
 * importTenantsBrowser: the configuration-driven import. The property and
 * the building of each number come from a configuration instead of from the
 * store; tenants and contacts are written as they are in the file; an
 * occupancy whose building number has no configured building is skipped;
 * with `performImport` off nothing is written and each tenant is only
 * summarised. An error inside one tenant is logged and the loop goes on.
 */
module ConfigImport {
  import opened Wrappers
  import opened TenantJson
  import opened Store
  import opened Units
  import AutoImport

  /** The property id the script ships with, which makes it refuse to run. */
  const Placeholder := "YOUR_PROPERTY_ID_HERE"

  datatype Config = Config(propertyId: string, buildingIds: map<string, string>, performImport: bool)

  /** The configuration as shipped: placeholders everywhere and a dry run. */
  const DefaultConfig := Config(
    Placeholder,
    map[
      "1" := "YOUR_BUILDING_1_ID_HERE",
      "2" := "YOUR_BUILDING_2_ID_HERE",
      "3" := "YOUR_BUILDING_3_ID_HERE",
      "4" := "YOUR_BUILDING_4_ID_HERE",
      "5" := "YOUR_BUILDING_5_ID_HERE"],
    false)

  // ---------------------------------------------------------------------------
  // Documents copied from the file

  /** The tenant document: every field as it is in the file. */
  function TenantDoc(t: TenantIn): (r: TenantData)
    ensures TenantBack(r, t.contacts, t.occupancies) == t
  {
    TenantData(t.tenantName, t.tenantType, t.status, t.mailingAddress, t.notes,
      t.taxId, t.businessType, t.numberOfEmployees, t.website)
  }

  /** The file's tenant that a tenant document, its contacts and its occupancies came from. */
  function TenantBack(d: TenantData, contacts: seq<ContactIn>, occupancies: seq<OccupancyIn>): TenantIn {
    TenantIn(d.tenantName, d.tenantType, d.status, d.mailingAddress, d.notes,
      d.taxId, d.businessType, d.numberOfEmployees, d.website, contacts, occupancies)
  }

  /** The contact document: the tenant link plus every field as it is in the file. */
  function ContactDoc(tenantId: DocId, c: ContactIn): (r: ContactData)
    ensures r.tenantId == tenantId && ContactBack(r) == c
  {
    ContactData(tenantId, c.contactName, c.contactEmail, c.contactPhone, c.contactTitle, c.classifications, c.notes)
  }

  /** The file's contact that a contact document came from. */
  function ContactBack(d: ContactData): ContactIn {
    ContactIn(d.contactName, d.contactEmail, d.contactPhone, d.contactTitle, d.classifications, d.notes)
  }

  /** The tenant documents of a whole file, in order. */
  function TenantDocs(ts: seq<TenantIn>): (r: seq<TenantData>)
    ensures |r| == |ts|
    ensures forall i | 0 <= i < |ts| :: TenantBack(r[i], ts[i].contacts, ts[i].occupancies) == ts[i]
  {
    seq(|ts|, i requires 0 <= i < |ts| => TenantDoc(ts[i]))
  }

  // ---------------------------------------------------------------------------
  // Occupancies

  /** `CONFIG.buildingIds[occupancy.buildingNumber]` when it is truthy, else None (the occupancy is skipped). */
  function BuildingFor(config: Config, o: OccupancyIn): Option<DocId> {
    if o.buildingNumber.Some? && o.buildingNumber.value in config.buildingIds
       && config.buildingIds[o.buildingNumber.value] != ""
    then Some(Given(config.buildingIds[o.buildingNumber.value]))
    else None
  }

  /** The occupancies that are written, in order: those with a configured building. */
  function Located(config: Config, os: seq<OccupancyIn>): seq<OccupancyIn> {
    if os == [] then []
    else
      var o := os[|os| - 1];
      Located(config, os[..|os| - 1]) + (if BuildingFor(config, o).Some? then [o] else [])
  }

  /** An occupancy is written exactly when its building number names a configured, non-empty building id. */
  lemma {:induction false} LocatedMeaning(config: Config, os: seq<OccupancyIn>)
    ensures forall o :: o in Located(config, os) <==> o in os && BuildingFor(config, o).Some?
    ensures |Located(config, os)| <= |os|
  {
    if os != [] {
      var init := os[..|os| - 1];
      LocatedMeaning(config, init);
      assert os == init + [os[|os| - 1]];
      forall o | o in os && BuildingFor(config, o).Some?
        ensures o in Located(config, os)
      {
        if o != os[|os| - 1] {
          assert o in init;
        }
      }
    }
  }

  /** The occupancy document for `o` with unit `unitId`: property from the configuration, the rest as in the file. */
  function OccupancyDoc(config: Config, tenantId: DocId, unitId: Option<DocId>, o: OccupancyIn): OccupancyData {
    OccupancyData(tenantId, Given(config.propertyId), unitId,
      AutoImport.DateOrNull(o.moveInDate), AutoImport.DateOrNull(o.moveOutDate), o.status, o.notes)
  }

  /**
   * `d` is the occupancy document written for `o` in building `b`: without a
   * unit number it has no unit; with one, its unit is in `units` under the
   * configured property, that building and that number.
   */
  ghost predicate OccupancyFrom(d: OccupancyData, o: OccupancyIn, config: Config, tenantId: DocId, b: DocId,
                                units: seq<Doc<UnitData>>) {
    d == OccupancyDoc(config, tenantId, d.unitId, o)
    && (Truthy(o.unitNumber) ==> d.unitId.Some? && UnitHas(units, d.unitId.value, Given(config.propertyId), b, o.unitNumber.value))
    && (!Truthy(o.unitNumber) ==> d.unitId.None?)
  }

  lemma OccupancyFromGrew(d: OccupancyData, o: OccupancyIn, config: Config, tenantId: DocId, b: DocId,
                          units: seq<Doc<UnitData>>, more: seq<Doc<UnitData>>)
    requires OccupancyFrom(d, o, config, tenantId, b, units) && Grew(units, more)
    ensures OccupancyFrom(d, o, config, tenantId, b, more)
  {
    if Truthy(o.unitNumber) {
      UnitHasGrew(units, more, d.unitId.value, Given(config.propertyId), b, o.unitNumber.value);
    }
  }

  /**
   * The unit lookups the occupancies `os` make, in order: the configured
   * building id and unit number of each located occupancy that has a unit number.
   */
  function UnitKeys(config: Config, os: seq<OccupancyIn>): seq<(DocId, string)> {
    if os == [] then []
    else
      var o := os[|os| - 1];
      UnitKeys(config, os[..|os| - 1])
      + (if BuildingFor(config, o).Some? && Truthy(o.unitNumber) then [(BuildingFor(config, o).value, o.unitNumber.value)] else [])
  }

  lemma UnitKeysSnoc(config: Config, os: seq<OccupancyIn>, o: OccupancyIn)
    ensures UnitKeys(config, os + [o]) == UnitKeys(config, os)
      + (if BuildingFor(config, o).Some? && Truthy(o.unitNumber) then [(BuildingFor(config, o).value, o.unitNumber.value)] else [])
  {
    assert (os + [o])[..|os|] == os;
  }

  /** The body of the for-of over occupancies, for an occupancy located in building `b`. */
  method ImportOccupancy(db: Db, config: Config, b: DocId, tenantId: DocId, o: OccupancyIn)
    returns (r: Result<DocId, StoreError>)
    requires db.Valid()
    modifies db`calls, db`nextId, db`units, db`occupancies
    ensures db.Valid()
    ensures db.faults == {} ==> r.Success?
    ensures Grew(old(db.units), db.units)
    ensures UniqueUnits(old(db.units)) ==> UniqueUnits(db.units)
    ensures !Truthy(o.unitNumber) ==> db.units == old(db.units)
    ensures Truthy(o.unitNumber) ==> AtMostCreated(old(db.units), db.units, Given(config.propertyId), b, o.unitNumber.value)
    ensures r.Failure? ==> db.occupancies == old(db.occupancies)
    ensures r.Success? ==> |db.occupancies| == |old(db.occupancies)| + 1 && Grew(old(db.occupancies), db.occupancies)
    ensures r.Success? ==> OccupancyFrom(db.occupancies[|old(db.occupancies)|].data, o, config, tenantId, b, db.units)
    ensures r.Success? ==>
      AutoImport.UnitLookup(old(db.units), db.units, Given(config.propertyId), b, o, db.occupancies[|old(db.occupancies)|].data.unitId)
    ensures old(db.calls) <= db.calls && (r.Failure? <==> Faulted(db.faults, old(db.calls), db.calls))
  {
    var unitId: Option<DocId> := None;
    if Truthy(o.unitNumber) {
      var unit := FindOrCreateUnit(db, Given(config.propertyId), b, o.unitNumber.value);
      if unit.Failure? {
        return Failure(unit.error);
      }
      unitId := Some(unit.value);
    }
    ghost var calls := db.calls;
    r := db.AddOccupancy(OccupancyDoc(config, tenantId, unitId, o));
    FaultedJoin(db.faults, old(db.calls), calls, db.calls);
  }

  /** `located` were written from `start` on, each as `OccupancyFrom` describes. */
  ghost predicate WroteOccupancies(occs: seq<Doc<OccupancyData>>, start: nat, located: seq<OccupancyIn>, config: Config,
                                   tenantId: DocId, units: seq<Doc<UnitData>>) {
    |occs| == start + |located|
    && forall k | 0 <= k < |located| ::
      BuildingFor(config, located[k]).Some?
      && OccupancyFrom(occs[start + k].data, located[k], config, tenantId, BuildingFor(config, located[k]).value, units)
  }

  lemma WroteOccupanciesStep(occs: seq<Doc<OccupancyData>>, more: seq<Doc<OccupancyData>>, start: nat,
                             located: seq<OccupancyIn>, o: OccupancyIn, config: Config, tenantId: DocId,
                             units: seq<Doc<UnitData>>, units': seq<Doc<UnitData>>)
    requires WroteOccupancies(occs, start, located, config, tenantId, units)
    requires Grew(units, units') && BuildingFor(config, o).Some?
    requires |more| == |occs| + 1 && Grew(occs, more)
    requires OccupancyFrom(more[|occs|].data, o, config, tenantId, BuildingFor(config, o).value, units')
    ensures WroteOccupancies(more, start, located + [o], config, tenantId, units')
  {
    var p := located + [o];
    forall k | 0 <= k < |p|
      ensures BuildingFor(config, p[k]).Some?
      ensures OccupancyFrom(more[start + k].data, p[k], config, tenantId, BuildingFor(config, p[k]).value, units')
    {
      if k < |located| {
        assert p[k] == located[k];
        assert more[start + k] == occs[start + k];
        OccupancyFromGrew(occs[start + k].data, located[k], config, tenantId,
          BuildingFor(config, located[k]).value, units, units');
      }
    }
  }

  lemma WroteOccupanciesGrew(occs: seq<Doc<OccupancyData>>, start: nat, located: seq<OccupancyIn>, config: Config,
                             tenantId: DocId, units: seq<Doc<UnitData>>, units': seq<Doc<UnitData>>)
    requires WroteOccupancies(occs, start, located, config, tenantId, units) && Grew(units, units')
    ensures WroteOccupancies(occs, start, located, config, tenantId, units')
  {
    forall k | 0 <= k < |located|
      ensures OccupancyFrom(occs[start + k].data, located[k], config, tenantId, BuildingFor(config, located[k]).value, units')
    {
      OccupancyFromGrew(occs[start + k].data, located[k], config, tenantId, BuildingFor(config, located[k]).value, units, units');
    }
  }

  /** The unit lookup of occupancy `os[i]`, if it makes one, extends the units' data by that lookup. */
  lemma UnitsStep(us0: seq<UnitData>, units: seq<Doc<UnitData>>, units': seq<Doc<UnitData>>, os: seq<OccupancyIn>, i: nat,
                  config: Config, unitId: Option<DocId>)
    requires i < |os| && Data(units) == UnitsFor(us0, Given(config.propertyId), UnitKeys(config, os[..i]))
    requires BuildingFor(config, os[i]).None? ==> units' == units
    requires BuildingFor(config, os[i]).Some? ==>
      AutoImport.UnitLookup(units, units', Given(config.propertyId), BuildingFor(config, os[i]).value, os[i], unitId)
    ensures Data(units') == UnitsFor(us0, Given(config.propertyId), UnitKeys(config, os[..i + 1]))
  {
    assert os[..i + 1] == os[..i] + [os[i]];
    UnitKeysSnoc(config, os[..i], os[i]);
    var o := os[i];
    if BuildingFor(config, o).Some? && Truthy(o.unitNumber) {
      var b := BuildingFor(config, o).value;
      LookedUpData(units, units', Given(config.propertyId), b, o.unitNumber.value, unitId.value);
      UnitsForSnoc(us0, Given(config.propertyId), UnitKeys(config, os[..i]), b, o.unitNumber.value);
    } else {
      assert UnitKeys(config, os[..i] + [o]) == UnitKeys(config, os[..i]) + [];
      assert UnitKeys(config, os[..i + 1]) == UnitKeys(config, os[..i]);
    }
  }

  /**
   * The occupancy loop after its first `i` occupancies, from `occs0` and
   * `units0` on: the located ones among them were written, linked to the
   * tenant, and the units are those their lookups give.
   */
  ghost predicate Locating(occs0: seq<Doc<OccupancyData>>, occs: seq<Doc<OccupancyData>>, units0: seq<Doc<UnitData>>,
                           units: seq<Doc<UnitData>>, os: seq<OccupancyIn>, i: nat, config: Config, tenantId: DocId) {
    i <= |os| && Grew(units0, units) && Grew(occs0, occs)
    && (UniqueUnits(units0) ==> UniqueUnits(units))
    && (forall d | d in occs[|occs0|..] :: d.data.tenantId == tenantId && d.data.propertyId == Given(config.propertyId))
    && WroteOccupancies(occs, |occs0|, Located(config, os[..i]), config, tenantId, units)
    && Data(units) == UnitsFor(Data(units0), Given(config.propertyId), UnitKeys(config, os[..i]))
  }

  /** Skipping an occupancy without a configured building. */
  lemma LocatingSkip(occs0: seq<Doc<OccupancyData>>, occs: seq<Doc<OccupancyData>>, units0: seq<Doc<UnitData>>,
                     units: seq<Doc<UnitData>>, os: seq<OccupancyIn>, i: nat, config: Config, tenantId: DocId)
    requires Locating(occs0, occs, units0, units, os, i, config, tenantId)
    requires i < |os| && BuildingFor(config, os[i]).None?
    ensures Locating(occs0, occs, units0, units, os, i + 1, config, tenantId)
  {
    assert os[..i + 1][..i] == os[..i];
    UnitsStep(Data(units0), units, units, os, i, config, None);
  }

  /** Writing a located occupancy, as `ImportOccupancy` does when it succeeds. */
  lemma LocatingStep(occs0: seq<Doc<OccupancyData>>, occs: seq<Doc<OccupancyData>>, occs': seq<Doc<OccupancyData>>,
                     units0: seq<Doc<UnitData>>, units: seq<Doc<UnitData>>, units': seq<Doc<UnitData>>,
                     os: seq<OccupancyIn>, i: nat, config: Config, tenantId: DocId)
    requires Locating(occs0, occs, units0, units, os, i, config, tenantId)
    requires i < |os| && BuildingFor(config, os[i]).Some?
    requires Grew(units, units') && (UniqueUnits(units) ==> UniqueUnits(units'))
    requires |occs'| == |occs| + 1 && Grew(occs, occs')
    requires OccupancyFrom(occs'[|occs|].data, os[i], config, tenantId, BuildingFor(config, os[i]).value, units')
    requires AutoImport.UnitLookup(units, units', Given(config.propertyId), BuildingFor(config, os[i]).value, os[i],
      occs'[|occs|].data.unitId)
    ensures Locating(occs0, occs', units0, units', os, i + 1, config, tenantId)
  {
    assert os[..i + 1][..i] == os[..i];
    UnitsStep(Data(units0), units, units', os, i, config, occs'[|occs|].data.unitId);
    WroteOccupanciesStep(occs, occs', |occs0|, Located(config, os[..i]), os[i], config, tenantId, units, units');
    assert occs'[|occs0|..] == occs[|occs0|..] + [occs'[|occs|]];
  }

  /** The for-of over a tenant's occupancies: skips those without a configured building and writes the others. */
  method ImportOccupancies(db: Db, config: Config, tenantId: DocId, os: seq<OccupancyIn>)
    returns (r: Result<(), StoreError>)
    requires db.Valid()
    modifies db`calls, db`nextId, db`units, db`occupancies
    ensures db.Valid()
    ensures db.faults == {} ==> r.Success?
    ensures Grew(old(db.units), db.units) && Grew(old(db.occupancies), db.occupancies)
    ensures UniqueUnits(old(db.units)) ==> UniqueUnits(db.units)
    ensures forall d | d in db.occupancies[|old(db.occupancies)|..] ::
      d.data.tenantId == tenantId && d.data.propertyId == Given(config.propertyId)
    ensures r.Success? ==> WroteOccupancies(db.occupancies, |old(db.occupancies)|, Located(config, os), config, tenantId, db.units)
    ensures r.Success? ==> Data(db.units) == UnitsFor(Data(old(db.units)), Given(config.propertyId), UnitKeys(config, os))
    ensures old(db.calls) <= db.calls && (r.Failure? <==> Faulted(db.faults, old(db.calls), db.calls))
  {
    for i := 0 to |os|
      invariant db.Valid()
      invariant old(db.calls) <= db.calls && !Faulted(db.faults, old(db.calls), db.calls)
      invariant Locating(old(db.occupancies), db.occupancies, old(db.units), db.units, os, i, config, tenantId)
    {
      var b := BuildingFor(config, os[i]);
      if b.None? {
        LocatingSkip(old(db.occupancies), db.occupancies, old(db.units), db.units, os, i, config, tenantId);
        continue;
      }
      ghost var units, occs, calls := db.units, db.occupancies, db.calls;
      var added := ImportOccupancy(db, config, b.value, tenantId, os[i]);
      FaultedJoin(db.faults, old(db.calls), calls, db.calls);
      if added.Failure? {
        return Failure(added.error);
      }
      LocatingStep(old(db.occupancies), occs, db.occupancies, old(db.units), units, db.units, os, i, config, tenantId);
    }
    assert os[..|os|] == os;
    r := Success(());
  }

  // ---------------------------------------------------------------------------
  // One tenant

  /** `contacts` from `start` on are the documents of `cs`, one each, in order, every field as in the file. */
  ghost predicate CopiedContacts(contacts: seq<Doc<ContactData>>, start: nat, cs: seq<ContactIn>) {
    |contacts| == start + |cs|
    && forall k | 0 <= k < |cs| :: ContactBack(contacts[start + k].data) == cs[k]
  }

  /** The for-of over a tenant's contacts: every one is written, linked to the tenant. */
  method ImportContacts(db: Db, tenantId: DocId, cs: seq<ContactIn>) returns (r: Result<(), StoreError>)
    requires db.Valid()
    modifies db`calls, db`nextId, db`contacts
    ensures db.Valid()
    ensures db.faults == {} ==> r.Success?
    ensures Grew(old(db.contacts), db.contacts)
    ensures forall d | d in db.contacts[|old(db.contacts)|..] :: d.data.tenantId == tenantId
    ensures r.Success? ==> CopiedContacts(db.contacts, |old(db.contacts)|, cs)
    ensures old(db.calls) <= db.calls && (r.Failure? <==> Faulted(db.faults, old(db.calls), db.calls))
  {
    for i := 0 to |cs|
      invariant db.Valid()
      invariant old(db.calls) <= db.calls && !Faulted(db.faults, old(db.calls), db.calls)
      invariant Grew(old(db.contacts), db.contacts)
      invariant forall d | d in db.contacts[|old(db.contacts)|..] :: d.data.tenantId == tenantId
      invariant |db.contacts| == |old(db.contacts)| + i
      invariant forall k | 0 <= k < i :: ContactBack(db.contacts[|old(db.contacts)| + k].data) == cs[k]
    {
      ghost var before, calls := db.contacts, db.calls;
      var added := db.AddContact(ContactDoc(tenantId, cs[i]));
      FaultedJoin(db.faults, old(db.calls), calls, db.calls);
      if added.Failure? {
        return Failure(added.error);
      }
      assert db.contacts[|old(db.contacts)|..] == before[|old(db.contacts)|..] + [Doc(added.value, ContactDoc(tenantId, cs[i]))];
    }
    r := Success(());
  }

  /**
   * Between marks `m` and `m'`, tenant `t` was written in full: its tenant
   * document at position `m.tenants`, then its contacts, then its located
   * occupancies, all linked to that document; the only units added are those
   * its occupancies' lookups created.
   */
  ghost predicate WroteTenant(ts: seq<Doc<TenantData>>, cs: seq<Doc<ContactData>>, os: seq<Doc<OccupancyData>>,
                              units: seq<Doc<UnitData>>, m: Mark, m': Mark, t: TenantIn, config: Config) {
    m.units <= m'.units <= |units|
    && Data(units[..m'.units]) == UnitsFor(Data(units[..m.units]), Given(config.propertyId), UnitKeys(config, t.occupancies))
    && m'.tenants == m.tenants + 1 <= |ts|
    && m.contacts <= m'.contacts <= |cs| && m.occupancies <= m'.occupancies <= |os|
    && ts[m.tenants].data == TenantDoc(t)
    && CopiedContacts(cs[..m'.contacts], m.contacts, t.contacts)
    && WroteOccupancies(os[..m'.occupancies], m.occupancies, Located(config, t.occupancies), config, ts[m.tenants].id, units)
  }

  lemma WroteTenantGrew(ts: seq<Doc<TenantData>>, cs: seq<Doc<ContactData>>, os: seq<Doc<OccupancyData>>,
                        units: seq<Doc<UnitData>>, ts': seq<Doc<TenantData>>, cs': seq<Doc<ContactData>>,
                        os': seq<Doc<OccupancyData>>, units': seq<Doc<UnitData>>, m: Mark, m': Mark, t: TenantIn,
                        config: Config)
    requires WroteTenant(ts, cs, os, units, m, m', t, config)
    requires Grew(ts, ts') && Grew(cs, cs') && Grew(os, os') && Grew(units, units')
    ensures WroteTenant(ts', cs', os', units', m, m', t, config)
  {
    assert ts'[m.tenants] == ts[m.tenants];
    assert cs'[..m'.contacts] == cs[..m'.contacts];
    assert os'[..m'.occupancies] == os[..m'.occupancies];
    assert units'[..m'.units] == units[..m'.units] && units'[..m.units] == units[..m.units];
    WroteOccupanciesGrew(os[..m'.occupancies], m.occupancies, Located(config, t.occupancies), config,
      ts[m.tenants].id, units, units');
  }

  /** The body of the tenant loop inside its `try`, in import mode: the tenant, its contacts, its occupancies. */
  method ProcessTenant(db: Db, config: Config, t: TenantIn) returns (r: Result<DocId, StoreError>)
    requires db.Valid()
    modifies db`calls, db`nextId, db`units, db`tenants, db`contacts, db`occupancies
    ensures db.Valid()
    ensures db.faults == {} ==> r.Success?
    ensures Grew(old(db.units), db.units) && Grew(old(db.tenants), db.tenants)
    ensures Grew(old(db.contacts), db.contacts) && Grew(old(db.occupancies), db.occupancies)
    ensures UniqueUnits(old(db.units)) ==> UniqueUnits(db.units)
    ensures db.tenants == old(db.tenants) || (|db.tenants| == |old(db.tenants)| + 1 && db.tenants[|old(db.tenants)|].data == TenantDoc(t))
    ensures forall d | d in db.contacts[|old(db.contacts)|..] :: d.data.tenantId in IdSet(db.tenants[|old(db.tenants)|..])
    ensures forall d | d in db.occupancies[|old(db.occupancies)|..] ::
      d.data.tenantId in IdSet(db.tenants[|old(db.tenants)|..]) && d.data.propertyId == Given(config.propertyId)
    ensures r.Success? ==> db.tenants == old(db.tenants) + [Doc(r.value, TenantDoc(t))]
    ensures r.Success? ==> CopiedContacts(db.contacts, |old(db.contacts)|, t.contacts)
    ensures r.Success? ==> WroteOccupancies(db.occupancies, |old(db.occupancies)|, Located(config, t.occupancies), config, r.value, db.units)
    ensures r.Success? ==> WroteTenant(db.tenants, db.contacts, db.occupancies, db.units, old(db.Here()), db.Here(), t, config)
    ensures old(db.calls) <= db.calls && (r.Failure? <==> Faulted(db.faults, old(db.calls), db.calls))
  {
    var added := db.AddTenant(TenantDoc(t));
    if added.Failure? {
      return Failure(added.error);
    }
    var tenantId := added.value;
    assert db.tenants[|old(db.tenants)|..] == [Doc(tenantId, TenantDoc(t))];
    assert tenantId in IdSet(db.tenants[|old(db.tenants)|..]);
    ghost var c1 := db.calls;
    var contacts := ImportContacts(db, tenantId, t.contacts);
    FaultedJoin(db.faults, old(db.calls), c1, db.calls);
    if contacts.Failure? {
      return Failure(contacts.error);
    }
    ghost var c2 := db.calls;
    var occupancies := ImportOccupancies(db, config, tenantId, t.occupancies);
    FaultedJoin(db.faults, old(db.calls), c2, db.calls);
    if occupancies.Failure? {
      return Failure(occupancies.error);
    }
    assert db.contacts[..|db.contacts|] == db.contacts;
    assert db.occupancies[..|db.occupancies|] == db.occupancies;
    assert db.units[..|db.units|] == db.units && db.units[..|old(db.units)|] == old(db.units);
    r := Success(tenantId);
  }

  // ---------------------------------------------------------------------------
  // The whole run

  /** What the run ends with; `failed` lists the tenants whose processing threw, which are only logged. */
  datatype Outcome =
    | Aborted
    | LoadFailed
    | DryRun(summaries: seq<Summary>)
    | Imported(failed: seq<nat>)

  /** A dry-run line: how many contacts and occupancies the tenant would get. */
  datatype Summary = Summary(contacts: nat, occupancies: nat)

  /** The loop in dry-run mode: one summary per tenant, and no write. */
  method Summarise(tenants: seq<TenantIn>) returns (summaries: seq<Summary>)
    ensures |summaries| == |tenants|
    ensures forall i | 0 <= i < |tenants| ::
      summaries[i].contacts == |tenants[i].contacts| && summaries[i].occupancies == |tenants[i].occupancies|
  {
    summaries := [];
    for i := 0 to |tenants|
      invariant |summaries| == i
      invariant forall k | 0 <= k < i ::
        summaries[k].contacts == |tenants[k].contacts| && summaries[k].occupancies == |tenants[k].occupancies|
    {
      summaries := summaries + [Summary(|tenants[i].contacts|, |tenants[i].occupancies|)];
    }
  }

  /** Strictly increasing indices below `n`. */
  predicate Indices(failed: seq<nat>, n: nat) {
    (forall k | 0 <= k < |failed| :: failed[k] < n)
    && (forall j, k | 0 <= j < k < |failed| :: failed[j] < failed[k])
  }

  /** With no failure the tenant documents written so far are those of the file's first tenants. */
  lemma TenantDocsStep(before: seq<Doc<TenantData>>, after: seq<Doc<TenantData>>, start: seq<Doc<TenantData>>,
                       tenants: seq<TenantIn>, i: nat, d: Doc<TenantData>)
    requires i < |tenants| && after == before + [d] && d.data == TenantDoc(tenants[i])
    requires Data(before) == Data(start) + TenantDocs(tenants[..i])
    ensures Data(after) == Data(start) + TenantDocs(tenants[..i + 1])
  {
    DataAppend(before, [d]);
    assert TenantDocs(tenants[..i + 1]) == TenantDocs(tenants[..i]) + [TenantDoc(tenants[i])];
  }

  /** Every tenant whose window in `marks` holds no throwing call was written in full. */
  ghost predicate WroteUnfaulted(ts: seq<Doc<TenantData>>, cs: seq<Doc<ContactData>>, os: seq<Doc<OccupancyData>>,
                                 units: seq<Doc<UnitData>>, faults: set<nat>, marks: seq<Mark>, tenants: seq<TenantIn>,
                                 config: Config) {
    |marks| <= |tenants| + 1
    && forall i | 0 <= i < |marks| - 1 && !Faulted(faults, marks[i].calls, marks[i + 1].calls) ::
      WroteTenant(ts, cs, os, units, marks[i], marks[i + 1], tenants[i], config)
  }

  lemma WroteUnfaultedStep(ts: seq<Doc<TenantData>>, cs: seq<Doc<ContactData>>, os: seq<Doc<OccupancyData>>,
                           units: seq<Doc<UnitData>>, ts': seq<Doc<TenantData>>, cs': seq<Doc<ContactData>>,
                           os': seq<Doc<OccupancyData>>, units': seq<Doc<UnitData>>, faults: set<nat>,
                           marks: seq<Mark>, m': Mark, tenants: seq<TenantIn>, config: Config)
    requires WroteUnfaulted(ts, cs, os, units, faults, marks, tenants, config)
    requires Grew(ts, ts') && Grew(cs, cs') && Grew(os, os') && Grew(units, units')
    requires 1 <= |marks| <= |tenants|
    requires !Faulted(faults, marks[|marks| - 1].calls, m'.calls) ==>
      WroteTenant(ts', cs', os', units', marks[|marks| - 1], m', tenants[|marks| - 1], config)
    ensures WroteUnfaulted(ts', cs', os', units', faults, marks + [m'], tenants, config)
  {
    var more := marks + [m'];
    forall i | 0 <= i < |more| - 1 && !Faulted(faults, more[i].calls, more[i + 1].calls)
      ensures WroteTenant(ts', cs', os', units', more[i], more[i + 1], tenants[i], config)
    {
      if i < |marks| - 1 {
        assert more[i] == marks[i] && more[i + 1] == marks[i + 1];
        WroteTenantGrew(ts, cs, os, units, ts', cs', os', units', marks[i], marks[i + 1], tenants[i], config);
      }
    }
  }

  /**
   * `marks` give one window of calls per tenant of `tenants`, from `start`
   * up to `end`, the state the run ends in; `failed` lists exactly the
   * windows that hold a throwing call, and every other tenant was written
   * in full, with nothing written after the last window. Of what a window
   * with a throwing call wrote, only that it belongs to the run's tenants
   * (`Linked`) is stated, not which of the tenant's documents persisted.
   */
  ghost predicate TenantsWritten(ts: seq<Doc<TenantData>>, cs: seq<Doc<ContactData>>, os: seq<Doc<OccupancyData>>,
                                 units: seq<Doc<UnitData>>, faults: set<nat>, start: Mark, end: Mark, marks: seq<Mark>,
                                 tenants: seq<TenantIn>, failed: seq<nat>, config: Config) {
    |marks| == |tenants| + 1 && Windows(marks, start, end)
    && failed == FailedAt(faults, marks)
    && WroteUnfaulted(ts, cs, os, units, faults, marks, tenants, config)
  }

  /** The tenant loop after its first `i` tenants, with `failed` recorded so far. */
  ghost predicate Progress(t0: seq<Doc<TenantData>>, ts: seq<Doc<TenantData>>, cs: seq<Doc<ContactData>>,
                           os: seq<Doc<OccupancyData>>, units: seq<Doc<UnitData>>, faults: set<nat>, start: Mark,
                           here: Mark, marks: seq<Mark>, tenants: seq<TenantIn>, i: nat, failed: seq<nat>, config: Config) {
    i <= |tenants| && |marks| == i + 1 && marks[0] == start && marks[i] == here
    && Windows(marks, start, here) && failed == FailedAt(faults, marks)
    && WroteUnfaulted(ts, cs, os, units, faults, marks, tenants, config)
    && (faults == {} ==> Data(ts) == Data(t0) + TenantDocs(tenants[..i]))
  }

  /** Whatever the tenant's processing did, the loop's progress moves on by one tenant. */
  lemma ProgressStep(t0: seq<Doc<TenantData>>, ts: seq<Doc<TenantData>>, cs: seq<Doc<ContactData>>,
                     os: seq<Doc<OccupancyData>>, units: seq<Doc<UnitData>>, ts': seq<Doc<TenantData>>,
                     cs': seq<Doc<ContactData>>, os': seq<Doc<OccupancyData>>, units': seq<Doc<UnitData>>,
                     faults: set<nat>, start: Mark, here: Mark, here': Mark, marks: seq<Mark>, tenants: seq<TenantIn>,
                     marks': seq<Mark>, i: nat, failed: seq<nat>, failed': seq<nat>, broke: bool, id: DocId,
                     config: Config)
    requires Progress(t0, ts, cs, os, units, faults, start, here, marks, tenants, i, failed, config)
    requires marks' == marks + [here'] && failed' == if broke then failed + [i] else failed
    requires i < |tenants| && Precedes(here, here')
    requires Grew(ts, ts') && Grew(cs, cs') && Grew(os, os') && Grew(units, units')
    requires broke <==> Faulted(faults, here.calls, here'.calls)
    requires !broke ==> ts' == ts + [Doc(id, TenantDoc(tenants[i]))]
    requires !broke ==> WroteTenant(ts', cs', os', units', here, here', tenants[i], config)
    ensures Progress(t0, ts', cs', os', units', faults, start, here', marks', tenants, i + 1, failed', config)
  {
    WindowsSnoc(marks, start, here, here');
    FailedAtSnoc(faults, marks, here');
    WroteUnfaultedStep(ts, cs, os, units, ts', cs', os', units', faults, marks, here', tenants, config);
    if faults == {} {
      TenantDocsStep(ts, ts', t0, tenants, i, Doc(id, TenantDoc(tenants[i])));
    }
  }

  /** The tenant loop in import mode: a tenant whose processing threw is recorded and the loop goes on. */
  method ImportAll(db: Db, config: Config, tenants: seq<TenantIn>) returns (failed: seq<nat>, ghost marks: seq<Mark>)
    requires db.Valid()
    modifies db`calls, db`nextId, db`units, db`tenants, db`contacts, db`occupancies
    ensures db.Valid()
    ensures Indices(failed, |tenants|)
    ensures TenantsWritten(db.tenants, db.contacts, db.occupancies, db.units, db.faults, old(db.Here()), db.Here(),
      marks, tenants, failed, config)
    ensures db.faults == {} ==> failed == [] && Data(db.tenants) == Data(old(db.tenants)) + TenantDocs(tenants)
    ensures |db.tenants| - |old(db.tenants)| + |failed| >= |tenants|
    ensures Grew(old(db.units), db.units) && Grew(old(db.tenants), db.tenants)
    ensures Grew(old(db.contacts), db.contacts) && Grew(old(db.occupancies), db.occupancies)
    ensures UniqueUnits(old(db.units)) ==> UniqueUnits(db.units)
    ensures Linked(old(db.contacts), db.contacts, old(db.occupancies), db.occupancies,
      old(db.tenants), db.tenants, Given(config.propertyId))
  {
    failed, marks := [], [db.Here()];
    for i := 0 to |tenants|
      invariant db.Valid()
      invariant Progress(old(db.tenants), db.tenants, db.contacts, db.occupancies, db.units, db.faults,
        old(db.Here()), db.Here(), marks, tenants, i, failed, config)
      invariant |db.tenants| - |old(db.tenants)| + |failed| >= i
      invariant Grew(old(db.units), db.units) && Grew(old(db.tenants), db.tenants)
      invariant Grew(old(db.contacts), db.contacts) && Grew(old(db.occupancies), db.occupancies)
      invariant UniqueUnits(old(db.units)) ==> UniqueUnits(db.units)
      invariant Linked(old(db.contacts), db.contacts, old(db.occupancies), db.occupancies,
        old(db.tenants), db.tenants, Given(config.propertyId))
    {
      ghost var t1, c1, o1, u1, here := db.tenants, db.contacts, db.occupancies, db.units, db.Here();
      var r := ProcessTenant(db, config, tenants[i]);
      LinkedStep(old(db.contacts), c1, db.contacts, old(db.occupancies), o1, db.occupancies,
        old(db.tenants), t1, db.tenants, Given(config.propertyId));
      ghost var marks0, failed0 := marks, failed;
      marks := marks + [db.Here()];
      if r.Failure? {
        failed := failed + [i];
      }
      ProgressStep(old(db.tenants), t1, c1, o1, u1, db.tenants, db.contacts, db.occupancies, db.units, db.faults,
        old(db.Here()), here, db.Here(), marks0, tenants, marks, i, failed0, failed, r.Failure?,
        if r.Success? then r.value else Auto(0), config);
    }
    assert tenants[..|tenants|] == tenants;
    FailedAtMeaning(db.faults, marks);
    FailedAtNone(marks);
  }

  /** importTenantsBrowser with `config` as CONFIG; `file` is the fetched JSON, None when loading it failed. */
  method ImportTenantsBrowser(db: Db, config: Config, file: Option<ImportFile>)
    returns (outcome: Outcome, ghost marks: seq<Mark>)
    requires db.Valid()
    modifies db`calls, db`nextId, db`units, db`tenants, db`contacts, db`occupancies
    ensures db.Valid()
    ensures outcome.Aborted? <==> config.propertyId == Placeholder
    ensures outcome.LoadFailed? <==> config.propertyId != Placeholder && file.None?
    ensures outcome.DryRun? <==> config.propertyId != Placeholder && file.Some? && !config.performImport
    ensures !outcome.Imported? ==>
      (db.calls == old(db.calls) && db.units == old(db.units) && db.tenants == old(db.tenants)
       && db.contacts == old(db.contacts) && db.occupancies == old(db.occupancies))
    ensures outcome.DryRun? ==>
      (|outcome.summaries| == |file.value.tenants|
       && forall i | 0 <= i < |file.value.tenants| ::
         outcome.summaries[i] == Summary(|file.value.tenants[i].contacts|, |file.value.tenants[i].occupancies|))
    ensures outcome.Imported? ==> Indices(outcome.failed, |file.value.tenants|)
    ensures outcome.Imported? ==>
      TenantsWritten(db.tenants, db.contacts, db.occupancies, db.units, db.faults, old(db.Here()), db.Here(),
        marks, file.value.tenants, outcome.failed, config)
    ensures outcome.Imported? && db.faults == {} ==>
      outcome.failed == [] && Data(db.tenants) == Data(old(db.tenants)) + TenantDocs(file.value.tenants)
    ensures Grew(old(db.units), db.units) && Grew(old(db.tenants), db.tenants)
    ensures Grew(old(db.contacts), db.contacts) && Grew(old(db.occupancies), db.occupancies)
    ensures UniqueUnits(old(db.units)) ==> UniqueUnits(db.units)
    ensures forall d | d in db.contacts[|old(db.contacts)|..] :: d.data.tenantId in IdSet(db.tenants[|old(db.tenants)|..])
    ensures forall d | d in db.occupancies[|old(db.occupancies)|..] ::
      d.data.tenantId in IdSet(db.tenants[|old(db.tenants)|..]) && d.data.propertyId == Given(config.propertyId)
  {
    marks := [];
    if config.propertyId == Placeholder {
      outcome := Aborted;
      return;
    }
    if file.None? {
      outcome := LoadFailed;
      return;
    }
    if !config.performImport {
      var summaries := Summarise(file.value.tenants);
      outcome := DryRun(summaries);
      return;
    }
    var failed;
    failed, marks := ImportAll(db, config, file.value.tenants);
    outcome := Imported(failed);
  }
}
