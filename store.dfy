/**
 * The database both import scripts write to, held in memory: one sequence
 * of documents per collection, in insertion order. `add` appends a document
 * under a freshly generated id; a query returns the matching documents in
 * collection order. Any call may throw: the store carries the set of call
 * numbers that fail, and counts its calls.
 */
module Store {
  import opened Wrappers

  /** A document id: one the store generated, or one given from outside (configuration, earlier data). */
  datatype DocId = Auto(n: nat) | Given(key: string)

  datatype Doc<T> = Doc(id: DocId, data: T)

  datatype StoreError = CallFailed(call: nat)

  datatype PropertyData = PropertyData(name: string)

  datatype BuildingData = BuildingData(propertyId: DocId, buildingName: Option<string>)

  datatype UnitData = UnitData(propertyId: DocId, buildingId: DocId, unitNumber: string, unitType: string, unitStatus: string)

  datatype TenantData = TenantData(
    tenantName: Option<string>,
    tenantType: Option<string>,
    status: Option<string>,
    mailingAddress: Option<string>,
    notes: Option<string>,
    taxId: Option<string>,
    businessType: Option<string>,
    numberOfEmployees: Option<int>,
    website: Option<string>)

  datatype ContactData = ContactData(
    tenantId: DocId,
    contactName: Option<string>,
    contactEmail: Option<string>,
    contactPhone: Option<string>,
    contactTitle: Option<string>,
    classifications: Option<seq<string>>,
    notes: Option<string>)

  /** `Timestamp.fromDate(new Date(text))`, kept as the text it was made from. */
  datatype Timestamp = FromDate(text: string)

  datatype OccupancyData = OccupancyData(
    tenantId: DocId,
    propertyId: DocId,
    unitId: Option<DocId>,
    moveInDate: Option<Timestamp>,
    moveOutDate: Option<Timestamp>,
    status: Option<string>,
    notes: Option<string>)

  /** The data of a list of documents, without their ids. */
  function Data<T>(docs: seq<Doc<T>>): (r: seq<T>)
    ensures |r| == |docs|
    ensures forall i | 0 <= i < |docs| :: r[i] == docs[i].data
  {
    seq(|docs|, i requires 0 <= i < |docs| => docs[i].data)
  }

  lemma DataAppend<T>(docs: seq<Doc<T>>, more: seq<Doc<T>>)
    ensures Data(docs + more) == Data(docs) + Data(more)
  {
  }

  /** What was appended to `before` to make `after`, when its data is known. */
  lemma DataAfter<T>(before: seq<Doc<T>>, after: seq<Doc<T>>, more: seq<T>)
    requires before <= after && Data(after) == Data(before) + more
    ensures Data(after[|before|..]) == more
  {
    assert after == before + after[|before|..];
    DataAppend(before, after[|before|..]);
  }

  /** The ids of a list of documents. */
  function IdSet<T(==)>(docs: seq<Doc<T>>): set<DocId> {
    set d | d in docs :: d.id
  }

  /** Every generated id among `docs` is below `n`. */
  ghost predicate Below<T>(docs: seq<Doc<T>>, n: nat) {
    forall d | d in docs :: d.id.Auto? ==> d.id.n < n
  }

  lemma BelowAppend<T>(docs: seq<Doc<T>>, d: Doc<T>, n: nat)
    requires Below(docs, n) && d.id == Auto(n)
    ensures Below(docs + [d], n + 1)
    ensures forall e | e in docs :: e.id != d.id
  {
  }

  // Queries: the documents matching a `where` chain, in collection order.

  function Named(docs: seq<Doc<PropertyData>>, name: string): seq<Doc<PropertyData>> {
    if docs == [] then []
    else (if docs[0].data.name == name then [docs[0]] else []) + Named(docs[1..], name)
  }

  function OfProperty(docs: seq<Doc<BuildingData>>, propertyId: DocId): seq<Doc<BuildingData>> {
    if docs == [] then []
    else (if docs[0].data.propertyId == propertyId then [docs[0]] else []) + OfProperty(docs[1..], propertyId)
  }

  /** A unit's key: the three fields the unit query compares. */
  predicate UnitKey(u: UnitData, propertyId: DocId, buildingId: DocId, unitNumber: string) {
    u.propertyId == propertyId && u.buildingId == buildingId && u.unitNumber == unitNumber
  }

  function UnitsAt(docs: seq<Doc<UnitData>>, propertyId: DocId, buildingId: DocId, unitNumber: string): seq<Doc<UnitData>> {
    if docs == [] then []
    else
      var here := if UnitKey(docs[0].data, propertyId, buildingId, unitNumber) then [docs[0]] else [];
      here + UnitsAt(docs[1..], propertyId, buildingId, unitNumber)
  }

  /** The properties query returns exactly the documents with that name, in order. */
  lemma {:induction false} NamedMembers(docs: seq<Doc<PropertyData>>, name: string)
    ensures forall d :: d in Named(docs, name) <==> d in docs && d.data.name == name
    ensures Named(docs, name) != [] ==> Named(docs, name)[0] in docs
  {
    if docs != [] {
      NamedMembers(docs[1..], name);
    }
  }

  lemma {:induction false} OfPropertyMembers(docs: seq<Doc<BuildingData>>, propertyId: DocId)
    ensures forall d :: d in OfProperty(docs, propertyId) <==> d in docs && d.data.propertyId == propertyId
  {
    if docs != [] {
      OfPropertyMembers(docs[1..], propertyId);
    }
  }

  /** The buildings query over a collection that grew: the old matches, then the new ones. */
  lemma {:induction false} OfPropertyAppend(docs: seq<Doc<BuildingData>>, more: seq<Doc<BuildingData>>, propertyId: DocId)
    ensures OfProperty(docs + more, propertyId) == OfProperty(docs, propertyId) + OfProperty(more, propertyId)
  {
    if docs == [] {
      assert docs + more == more;
    } else {
      assert (docs + more)[0] == docs[0];
      assert (docs + more)[1..] == docs[1..] + more;
      OfPropertyAppend(docs[1..], more, propertyId);
      var head := if docs[0].data.propertyId == propertyId then [docs[0]] else [];
      assert OfProperty(docs + more, propertyId) == head + (OfProperty(docs[1..], propertyId) + OfProperty(more, propertyId));
    }
  }

  /** Documents all of the queried property are all returned, in order. */
  lemma {:induction false} OfPropertyAll(docs: seq<Doc<BuildingData>>, propertyId: DocId)
    requires forall d | d in docs :: d.data.propertyId == propertyId
    ensures OfProperty(docs, propertyId) == docs
  {
    if docs != [] {
      assert docs[0] in docs;
      OfPropertyAll(docs[1..], propertyId);
    }
  }

  /** The units query finds the units with that key; its first result is the first such unit. */
  lemma {:induction false} UnitsAtMembers(docs: seq<Doc<UnitData>>, p: DocId, b: DocId, n: string)
    ensures forall d :: d in UnitsAt(docs, p, b, n) <==> d in docs && UnitKey(d.data, p, b, n)
    ensures UnitsAt(docs, p, b, n) == [] <==> forall d | d in docs :: !UnitKey(d.data, p, b, n)
  {
    if docs != [] {
      UnitsAtMembers(docs[1..], p, b, n);
      assert docs[0] in docs;
    }
  }

  /** No two units share a key: what lookup-or-create keeps true. */
  predicate UniqueUnits(units: seq<Doc<UnitData>>) {
    forall i, j | 0 <= i < j < |units| ::
      !UnitKey(units[j].data, units[i].data.propertyId, units[i].data.buildingId, units[i].data.unitNumber)
  }

  /** `old` is a prefix of `now`: the collection only grew. */
  predicate Grew<T(==)>(old_: seq<T>, now: seq<T>) {
    old_ <= now
  }

  /** Some call numbered from `from` up to, not including, `to` throws. */
  predicate Faulted(faults: set<nat>, from: nat, to: nat) {
    exists k | from <= k < to :: k in faults
  }

  /** The window of one call throws exactly when that call does. */
  lemma FaultedOne(faults: set<nat>, n: nat)
    ensures Faulted(faults, n, n + 1) <==> n in faults
  {
    if n in faults {
      assert n <= n < n + 1;
    }
  }

  /** A window throws exactly when one of its two halves does. */
  lemma FaultedJoin(faults: set<nat>, a: nat, b: nat, c: nat)
    requires a <= b <= c
    ensures Faulted(faults, a, c) <==> Faulted(faults, a, b) || Faulted(faults, b, c)
  {
    if Faulted(faults, a, c) {
      var k :| a <= k < c && k in faults;
      if k < b {
        assert a <= k < b && k in faults;
      } else {
        assert b <= k < c && k in faults;
      }
    }
  }

  /**
   * Where a run of the import stood before one of its tenants: the number of
   * calls made so far and the lengths of the collections it appends to.
   */
  datatype Mark = Mark(calls: nat, units: nat, tenants: nat, contacts: nat, occupancies: nat)

  /** Between marks `m` and `m'` no call was undone and no collection shrank. */
  predicate Precedes(m: Mark, m': Mark) {
    m.calls <= m'.calls && m.units <= m'.units && m.tenants <= m'.tenants && m.contacts <= m'.contacts && m.occupancies <= m'.occupancies
  }

  /**
   * `marks` split the run from `start` to `end` into consecutive windows,
   * window `i` running from `marks[i]` to `marks[i + 1]`.
   */
  predicate Windows(marks: seq<Mark>, start: Mark, end: Mark) {
    |marks| >= 1 && marks[0] == start && marks[|marks| - 1] == end
    && forall i | 0 <= i < |marks| - 1 :: Precedes(marks[i], marks[i + 1])
  }

  /** One more window, ending at `m`, after the last. */
  lemma WindowsSnoc(marks: seq<Mark>, start: Mark, end: Mark, m: Mark)
    requires Windows(marks, start, end) && Precedes(end, m)
    ensures Windows(marks + [m], start, m)
  {
    var more := marks + [m];
    forall i | 0 <= i < |more| - 1
      ensures Precedes(more[i], more[i + 1])
    {
      if i + 1 < |marks| {
        assert more[i] == marks[i] && more[i + 1] == marks[i + 1];
      }
    }
  }

  /** The windows of `marks` in which some call throws, in increasing order. */
  function FailedAt(faults: set<nat>, marks: seq<Mark>): seq<nat>
    decreases |marks|
  {
    if |marks| <= 1 then []
    else
      var last := |marks| - 2;
      FailedAt(faults, marks[..last + 1])
      + (if Faulted(faults, marks[last].calls, marks[last + 1].calls) then [last] else [])
  }

  /**
   * The failed windows are exactly the windows in which some call throws,
   * listed in increasing order.
   */
  lemma {:induction false} FailedAtMeaning(faults: set<nat>, marks: seq<Mark>)
    ensures forall k | 0 <= k < |FailedAt(faults, marks)| ::
      FailedAt(faults, marks)[k] + 1 < |marks|
      && Faulted(faults, marks[FailedAt(faults, marks)[k]].calls, marks[FailedAt(faults, marks)[k] + 1].calls)
    ensures forall i | 0 <= i < |marks| - 1 && Faulted(faults, marks[i].calls, marks[i + 1].calls) ::
      i in FailedAt(faults, marks)
    ensures forall j, k | 0 <= j < k < |FailedAt(faults, marks)| :: FailedAt(faults, marks)[j] < FailedAt(faults, marks)[k]
    decreases |marks|
  {
    if |marks| > 1 {
      var init := marks[..|marks| - 1];
      FailedAtMeaning(faults, init);
      assert forall i | 0 <= i < |init| :: init[i] == marks[i];
    }
  }

  /** One more window adds one failed window exactly when a call in it throws. */
  lemma FailedAtSnoc(faults: set<nat>, marks: seq<Mark>, m: Mark)
    requires |marks| >= 1
    ensures FailedAt(faults, marks + [m])
      == FailedAt(faults, marks) + if Faulted(faults, marks[|marks| - 1].calls, m.calls) then [|marks| - 1] else []
  {
    var more := marks + [m];
    assert more[..|marks|] == marks;
    assert more[|marks| - 1] == marks[|marks| - 1] && more[|marks|] == m;
  }

  /**
   * Every contact and occupancy written since `c0`, `o0` belongs to a tenant
   * written since `t0`, and every occupancy is in property `propertyId`.
   */
  ghost predicate Linked(c0: seq<Doc<ContactData>>, c: seq<Doc<ContactData>>, o0: seq<Doc<OccupancyData>>,
                         o: seq<Doc<OccupancyData>>, t0: seq<Doc<TenantData>>, t: seq<Doc<TenantData>>, propertyId: DocId)
    requires |c0| <= |c| && |o0| <= |o| && |t0| <= |t|
  {
    (forall d | d in c[|c0|..] :: d.data.tenantId in IdSet(t[|t0|..]))
    && (forall d | d in o[|o0|..] :: d.data.tenantId in IdSet(t[|t0|..]) && d.data.propertyId == propertyId)
  }

  lemma LinkedStep(c0: seq<Doc<ContactData>>, c1: seq<Doc<ContactData>>, c2: seq<Doc<ContactData>>,
                   o0: seq<Doc<OccupancyData>>, o1: seq<Doc<OccupancyData>>, o2: seq<Doc<OccupancyData>>,
                   t0: seq<Doc<TenantData>>, t1: seq<Doc<TenantData>>, t2: seq<Doc<TenantData>>, propertyId: DocId)
    requires Grew(c0, c1) && Grew(c1, c2) && Grew(o0, o1) && Grew(o1, o2) && Grew(t0, t1) && Grew(t1, t2)
    requires Linked(c0, c1, o0, o1, t0, t1, propertyId)
    requires Linked(c1, c2, o1, o2, t1, t2, propertyId)
    ensures Linked(c0, c2, o0, o2, t0, t2, propertyId)
  {
    assert c2[|c0|..] == c1[|c0|..] + c2[|c1|..];
    assert o2[|o0|..] == o1[|o0|..] + o2[|o1|..];
    assert t2[|t0|..] == t1[|t0|..] + t2[|t1|..];
  }

  /** With no throwing call, no window failed. */
  lemma FailedAtNone(marks: seq<Mark>)
    ensures FailedAt({}, marks) == []
  {
    FailedAtMeaning({}, marks);
  }

  class Db {
    var properties: seq<Doc<PropertyData>>
    var buildings: seq<Doc<BuildingData>>
    var units: seq<Doc<UnitData>>
    var tenants: seq<Doc<TenantData>>
    var contacts: seq<Doc<ContactData>>
    var occupancies: seq<Doc<OccupancyData>>
    /** The number the next generated id takes. */
    var nextId: nat
    /** The number of calls made so far. */
    var calls: nat
    /** The calls that throw. */
    const faults: set<nat>

    /** Where the run stands now. */
    function Here(): Mark
      reads this
    {
      Mark(calls, |units|, |tenants|, |contacts|, |occupancies|)
    }

    /** Generated ids are never reused. */
    ghost predicate Valid()
      reads this
    {
      Below(properties, nextId) && Below(buildings, nextId) && Below(units, nextId)
      && Below(tenants, nextId) && Below(contacts, nextId) && Below(occupancies, nextId)
    }

    constructor(properties: seq<Doc<PropertyData>>, buildings: seq<Doc<BuildingData>>, units: seq<Doc<UnitData>>,
                faults: set<nat>)
      requires forall d | d in properties :: d.id.Given?
      requires forall d | d in buildings :: d.id.Given?
      requires forall d | d in units :: d.id.Given?
      ensures Valid()
      ensures this.properties == properties && this.buildings == buildings && this.units == units
      ensures tenants == [] && contacts == [] && occupancies == []
      ensures calls == 0 && this.faults == faults
    {
      this.properties := properties;
      this.buildings := buildings;
      this.units := units;
      tenants, contacts, occupancies := [], [], [];
      nextId, calls := 0, 0;
      this.faults := faults;
    }

    /** Counts one call; it fails when its number is in `faults`. */
    method Call() returns (r: Result<(), StoreError>)
      modifies this`calls
      ensures calls == old(calls) + 1
      ensures r.Failure? <==> old(calls) in faults
      ensures r.Failure? <==> Faulted(faults, old(calls), calls)
      ensures r.Failure? ==> r.error == CallFailed(old(calls))
    {
      FaultedOne(faults, calls);
      if calls in faults {
        r := Failure(CallFailed(calls));
      } else {
        r := Success(());
      }
      calls := calls + 1;
    }

    /** `collection('properties').where('name', '==', name).get()` */
    method QueryProperties(name: string) returns (r: Result<seq<Doc<PropertyData>>, StoreError>)
      modifies this`calls
      ensures calls == old(calls) + 1
      ensures r.Failure? <==> old(calls) in faults
      ensures r.Failure? <==> Faulted(faults, old(calls), calls)
      ensures r.Success? ==> r.value == Named(properties, name)
    {
      var c := Call();
      if c.Failure? {
        return Failure(c.error);
      }
      r := Success(Named(properties, name));
    }

    /** `collection('buildings').where('propertyId', '==', propertyId).get()` */
    method QueryBuildings(propertyId: DocId) returns (r: Result<seq<Doc<BuildingData>>, StoreError>)
      modifies this`calls
      ensures calls == old(calls) + 1
      ensures r.Failure? <==> old(calls) in faults
      ensures r.Failure? <==> Faulted(faults, old(calls), calls)
      ensures r.Success? ==> r.value == OfProperty(buildings, propertyId)
    {
      var c := Call();
      if c.Failure? {
        return Failure(c.error);
      }
      r := Success(OfProperty(buildings, propertyId));
    }

    /** `collection('units')` with `where` on propertyId, buildingId and unitNumber. */
    method QueryUnits(p: DocId, b: DocId, n: string) returns (r: Result<seq<Doc<UnitData>>, StoreError>)
      modifies this`calls
      ensures calls == old(calls) + 1
      ensures r.Failure? <==> old(calls) in faults
      ensures r.Failure? <==> Faulted(faults, old(calls), calls)
      ensures r.Success? ==> r.value == UnitsAt(units, p, b, n)
    {
      var c := Call();
      if c.Failure? {
        return Failure(c.error);
      }
      r := Success(UnitsAt(units, p, b, n));
    }

    method AddBuilding(data: BuildingData) returns (r: Result<DocId, StoreError>)
      requires Valid()
      modifies this`calls, this`nextId, this`buildings
      ensures Valid()
      ensures calls == old(calls) + 1
      ensures r.Failure? <==> old(calls) in faults
      ensures r.Failure? <==> Faulted(faults, old(calls), calls)
      ensures r.Failure? ==> buildings == old(buildings) && nextId == old(nextId)
      ensures r.Success? ==> r == Success(Auto(old(nextId))) && nextId == old(nextId) + 1
      ensures r.Success? ==> buildings == old(buildings) + [Doc(r.value, data)]
      ensures r.Success? ==> forall d | d in old(buildings) :: d.id != r.value
    {
      var c := Call();
      if c.Failure? {
        return Failure(c.error);
      }
      BelowAppend(buildings, Doc(Auto(nextId), data), nextId);
      buildings := buildings + [Doc(Auto(nextId), data)];
      r := Success(Auto(nextId));
      nextId := nextId + 1;
    }

    method AddUnit(data: UnitData) returns (r: Result<DocId, StoreError>)
      requires Valid()
      modifies this`calls, this`nextId, this`units
      ensures Valid()
      ensures calls == old(calls) + 1
      ensures r.Failure? <==> old(calls) in faults
      ensures r.Failure? <==> Faulted(faults, old(calls), calls)
      ensures r.Failure? ==> units == old(units) && nextId == old(nextId)
      ensures r.Success? ==> r == Success(Auto(old(nextId))) && nextId == old(nextId) + 1
      ensures r.Success? ==> units == old(units) + [Doc(r.value, data)]
      ensures r.Success? ==> forall d | d in old(units) :: d.id != r.value
    {
      var c := Call();
      if c.Failure? {
        return Failure(c.error);
      }
      BelowAppend(units, Doc(Auto(nextId), data), nextId);
      units := units + [Doc(Auto(nextId), data)];
      r := Success(Auto(nextId));
      nextId := nextId + 1;
    }

    method AddTenant(data: TenantData) returns (r: Result<DocId, StoreError>)
      requires Valid()
      modifies this`calls, this`nextId, this`tenants
      ensures Valid()
      ensures calls == old(calls) + 1
      ensures r.Failure? <==> old(calls) in faults
      ensures r.Failure? <==> Faulted(faults, old(calls), calls)
      ensures r.Failure? ==> tenants == old(tenants) && nextId == old(nextId)
      ensures r.Success? ==> r == Success(Auto(old(nextId))) && nextId == old(nextId) + 1
      ensures r.Success? ==> tenants == old(tenants) + [Doc(r.value, data)]
      ensures r.Success? ==> forall d | d in old(tenants) :: d.id != r.value
    {
      var c := Call();
      if c.Failure? {
        return Failure(c.error);
      }
      BelowAppend(tenants, Doc(Auto(nextId), data), nextId);
      tenants := tenants + [Doc(Auto(nextId), data)];
      r := Success(Auto(nextId));
      nextId := nextId + 1;
    }

    method AddContact(data: ContactData) returns (r: Result<DocId, StoreError>)
      requires Valid()
      modifies this`calls, this`nextId, this`contacts
      ensures Valid()
      ensures calls == old(calls) + 1
      ensures r.Failure? <==> old(calls) in faults
      ensures r.Failure? <==> Faulted(faults, old(calls), calls)
      ensures r.Failure? ==> contacts == old(contacts) && nextId == old(nextId)
      ensures r.Success? ==> r == Success(Auto(old(nextId))) && nextId == old(nextId) + 1
      ensures r.Success? ==> contacts == old(contacts) + [Doc(r.value, data)]
    {
      var c := Call();
      if c.Failure? {
        return Failure(c.error);
      }
      BelowAppend(contacts, Doc(Auto(nextId), data), nextId);
      contacts := contacts + [Doc(Auto(nextId), data)];
      r := Success(Auto(nextId));
      nextId := nextId + 1;
    }

    method AddOccupancy(data: OccupancyData) returns (r: Result<DocId, StoreError>)
      requires Valid()
      modifies this`calls, this`nextId, this`occupancies
      ensures Valid()
      ensures calls == old(calls) + 1
      ensures r.Failure? <==> old(calls) in faults
      ensures r.Failure? <==> Faulted(faults, old(calls), calls)
      ensures r.Failure? ==> occupancies == old(occupancies) && nextId == old(nextId)
      ensures r.Success? ==> r == Success(Auto(old(nextId))) && nextId == old(nextId) + 1
      ensures r.Success? ==> occupancies == old(occupancies) + [Doc(r.value, data)]
    {
      var c := Call();
      if c.Failure? {
        return Failure(c.error);
      }
      BelowAppend(occupancies, Doc(Auto(nextId), data), nextId);
      occupancies := occupancies + [Doc(Auto(nextId), data)];
      r := Success(Auto(nextId));
      nextId := nextId + 1;
    }
  }
}

