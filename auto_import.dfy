/**
 * importTenantsFromJSON (import_tenants_browser.js): finds the property by
 * name, finds or creates buildings 1 to 5, then writes every tenant with its
 * contacts and occupancies, counting the tenants that went through and the
 * ones that threw. Loading the file is a parameter: None when it failed.
 */
module AutoImport {
  import opened Wrappers
  import opened Text
  import opened TenantJson
  import opened Store
  import opened Units

  const PropertyName := "Sanctuary Office Park"

  const BuildingNumbers: seq<string> := ["1", "2", "3", "4", "5"]

  /** The name a created building gets, `buildingNames[num]`. */
  function BuildingName(num: string): string {
    "Building " + num
  }

  /** The test a building document passes to be building `num`. */
  predicate Matches(b: BuildingData, num: string) {
    b.buildingName == Some(BuildingName(num))
    || b.buildingName == Some("Building #" + num)
    || (b.buildingName.Some? && Contains(b.buildingName.value, num))
  }

  /** The two exact-name tests are subsumed: a building matches `num` exactly when its name contains `num`. */
  lemma MatchesIsContains(b: BuildingData, num: string)
    ensures Matches(b, num) <==> b.buildingName.Some? && Contains(b.buildingName.value, num)
  {
    if b.buildingName == Some(BuildingName(num)) {
      assert OccursAt(BuildingName(num), num, 9);
    } else if b.buildingName == Some("Building #" + num) {
      assert OccursAt("Building #" + num, num, 10);
    }
  }

  // ---------------------------------------------------------------------------
  // Matching existing buildings

  /** The inner loop: for each number in `nums`, a match records this document's id. */
  function MatchInto(m: map<string, DocId>, d: Doc<BuildingData>, nums: seq<string>): map<string, DocId>
    decreases |nums|
  {
    if nums == [] then m
    else MatchInto(if Matches(d.data, nums[0]) then m[nums[0] := d.id] else m, d, nums[1..])
  }

  /** `existingBuildings` after the forEach over `docs`. */
  function Existing(docs: seq<Doc<BuildingData>>): map<string, DocId> {
    if docs == [] then map[]
    else MatchInto(Existing(docs[..|docs| - 1]), docs[|docs| - 1], BuildingNumbers)
  }

  lemma {:induction false} MatchIntoAt(m: map<string, DocId>, d: Doc<BuildingData>, nums: seq<string>, num: string)
    ensures num in MatchInto(m, d, nums) <==> num in m || (num in nums && Matches(d.data, num))
    ensures num in nums && Matches(d.data, num) ==> MatchInto(m, d, nums)[num] == d.id
    ensures !(num in nums && Matches(d.data, num)) && num in m ==> MatchInto(m, d, nums)[num] == m[num]
    decreases |nums|
  {
    if nums != [] {
      MatchIntoAt(if Matches(d.data, nums[0]) then m[nums[0] := d.id] else m, d, nums[1..], num);
    }
  }

  /**
   * Building `num` is found exactly when some document matches it, and the
   * id recorded is that of the LAST matching document.
   */
  lemma {:induction false} ExistingMeaning(docs: seq<Doc<BuildingData>>, num: string)
    ensures num in Existing(docs) <==> num in BuildingNumbers && exists j | 0 <= j < |docs| :: Matches(docs[j].data, num)
    ensures num in Existing(docs) ==> exists j | 0 <= j < |docs| ::
      Existing(docs)[num] == docs[j].id && Matches(docs[j].data, num)
      && forall k | j < k < |docs| :: !Matches(docs[k].data, num)
  {
    if docs != [] {
      var init, last := docs[..|docs| - 1], docs[|docs| - 1];
      ExistingMeaning(init, num);
      MatchIntoAt(Existing(init), last, BuildingNumbers, num);
      if num in BuildingNumbers && Matches(last.data, num) {
        assert Existing(docs)[num] == docs[|docs| - 1].id;
      } else {
        if exists j | 0 <= j < |docs| :: Matches(docs[j].data, num) {
          var j :| 0 <= j < |docs| && Matches(docs[j].data, num);
          if num in BuildingNumbers {
            assert init[j] == docs[j];
          }
        }
        if num in Existing(init) {
          var j :| 0 <= j < |init| && Existing(init)[num] == init[j].id && Matches(init[j].data, num)
            && forall k | j < k < |init| :: !Matches(init[k].data, num);
          assert docs[j] == init[j];
          forall k | j < k < |docs| ensures !Matches(docs[k].data, num) {
            if k < |init| {
              assert docs[k] == init[k];
            }
          }
        }
      }
    }
  }

  /** The forEach over the building documents, with its loop over the five numbers. */
  method MatchExisting(docs: seq<Doc<BuildingData>>) returns (existing: map<string, DocId>)
    ensures existing == Existing(docs)
  {
    existing := map[];
    for i := 0 to |docs|
      invariant existing == Existing(docs[..i])
    {
      assert docs[..i + 1][..i] == docs[..i];
      ghost var before := existing;
      for j := 0 to |BuildingNumbers|
        invariant MatchInto(existing, docs[i], BuildingNumbers[j..]) == MatchInto(before, docs[i], BuildingNumbers)
      {
        assert BuildingNumbers[j..][1..] == BuildingNumbers[j + 1..];
        var num := BuildingNumbers[j];
        if Matches(docs[i].data, num) {
          existing := existing[num := docs[i].id];
        }
      }
    }
    assert docs[..|docs|] == docs;
  }

  // ---------------------------------------------------------------------------
  // Creating the missing buildings

  /** The keys of `buildingNames`: no number twice. */
  predicate Distinct(nums: seq<string>) {
    forall i, j | 0 <= i < j < |nums| :: nums[i] != nums[j]
  }

  /**
   * The building documents created for the numbers of `nums` with no
   * existing match, in order, each with the id that `ids` records for it.
   */
  function Created(propertyId: DocId, existing: map<string, DocId>, ids: map<string, DocId>, nums: seq<string>)
    : seq<Doc<BuildingData>>
    requires forall n | n in nums :: n in ids
  {
    if nums == [] then []
    else
      var num := nums[|nums| - 1];
      Created(propertyId, existing, ids, nums[..|nums| - 1])
        + (if num in existing then [] else [Doc(ids[num], BuildingData(propertyId, Some(BuildingName(num))))])
  }

  lemma {:induction false} CreatedAgree(propertyId: DocId, existing: map<string, DocId>, ids: map<string, DocId>,
                                        ids': map<string, DocId>, nums: seq<string>)
    requires forall n | n in nums :: n in ids && n in ids' && ids[n] == ids'[n]
    ensures Created(propertyId, existing, ids, nums) == Created(propertyId, existing, ids', nums)
  {
    if nums != [] {
      CreatedAgree(propertyId, existing, ids, ids', nums[..|nums| - 1]);
    }
  }

  /** Nothing is created when every number already has a match. */
  lemma {:induction false} CreatedNone(propertyId: DocId, existing: map<string, DocId>, ids: map<string, DocId>, nums: seq<string>)
    requires forall n | n in nums :: n in ids && n in existing
    ensures Created(propertyId, existing, ids, nums) == []
  {
    if nums != [] {
      CreatedNone(propertyId, existing, ids, nums[..|nums| - 1]);
    }
  }

  /** One round of the loop over `buildingNames`: the existing id of building `num`, or a new building's. */
  method ResolveOne(db: Db, propertyId: DocId, existing: map<string, DocId>, num: string, ids: map<string, DocId>)
    returns (r: Result<map<string, DocId>, StoreError>)
    requires db.Valid()
    modifies db`calls, db`nextId, db`buildings
    ensures db.Valid()
    ensures db.faults == {} ==> r.Success?
    ensures Grew(old(db.buildings), db.buildings)
    ensures r.Success? ==> r.value.Keys == ids.Keys + {num}
    ensures r.Success? ==> forall n | n in ids && n != num :: r.value[n] == ids[n]
    ensures r.Success? && num in existing ==> r.value[num] == existing[num] && db.buildings == old(db.buildings)
    ensures r.Success? && num !in existing ==>
      db.buildings == old(db.buildings) + [Doc(r.value[num], BuildingData(propertyId, Some(BuildingName(num))))]
    ensures r.Success? ==> db.buildings == old(db.buildings) + CreatedFor(propertyId, existing, r.value[num], num)
    ensures old(db.calls) <= db.calls && (r.Failure? <==> Faulted(db.faults, old(db.calls), db.calls))
  {
    if num in existing {
      return Success(ids[num := existing[num]]);
    }
    var added := db.AddBuilding(BuildingData(propertyId, Some(BuildingName(num))));
    if added.Failure? {
      return Failure(added.error);
    }
    r := Success(ids[num := added.value]);
  }

  /** One round of the loop over `buildingNames` adds its number to the keys. */
  lemma KeysStep(nums: seq<string>, k: nat, k': nat, ids: map<string, DocId>, ids': map<string, DocId>)
    requires k < |nums| && k' == k + 1
    requires ids.Keys == set num | num in nums[..k]
    requires ids'.Keys == ids.Keys + {nums[k]}
    ensures ids'.Keys == set num | num in nums[..k']
  {
    assert nums[..k'] == nums[..k] + [nums[k]];
  }

  /** One round keeps every recorded id either the existing one or that of a building named for its number. */
  lemma IdsStep(propertyId: DocId, existing: map<string, DocId>, num: string,
                ids: map<string, DocId>, ids': map<string, DocId>, before: seq<Doc<BuildingData>>, after: seq<Doc<BuildingData>>)
    requires forall n | n in ids && n in existing :: ids[n] == existing[n]
    requires forall n | n in ids && n !in existing :: Doc(ids[n], BuildingData(propertyId, Some(BuildingName(n)))) in before
    requires ids'.Keys == ids.Keys + {num}
    requires forall n | n in ids && n != num :: ids'[n] == ids[n]
    requires num in existing ==> ids'[num] == existing[num] && after == before
    requires num !in existing ==> after == before + [Doc(ids'[num], BuildingData(propertyId, Some(BuildingName(num))))]
    ensures forall n | n in ids' && n in existing :: ids'[n] == existing[n]
    ensures forall n | n in ids' && n !in existing :: Doc(ids'[n], BuildingData(propertyId, Some(BuildingName(n)))) in after
  {
  }

  /** With no number twice, the number of a round is not among those of the earlier rounds. */
  lemma FreshNumber(nums: seq<string>, k: nat)
    requires k < |nums| && Distinct(nums)
    ensures nums[k] !in nums[..k]
  {
    forall j | 0 <= j < k ensures nums[..k][j] != nums[k] {
      assert nums[..k][j] == nums[j];
    }
  }

  /** The building created for number `num` when it has no match. */
  function CreatedFor(propertyId: DocId, existing: map<string, DocId>, id: DocId, num: string): seq<Doc<BuildingData>> {
    if num in existing then [] else [Doc(id, BuildingData(propertyId, Some(BuildingName(num))))]
  }

  lemma CreatedSnoc(propertyId: DocId, existing: map<string, DocId>, ids: map<string, DocId>, nums: seq<string>, k: nat)
    requires k < |nums| && forall n | n in nums[..k + 1] :: n in ids
    ensures nums[k] in ids
    ensures Created(propertyId, existing, ids, nums[..k + 1])
         == Created(propertyId, existing, ids, nums[..k]) + CreatedFor(propertyId, existing, ids[nums[k]], nums[k])
  {
    var prefix := nums[..k + 1];
    assert prefix[|prefix| - 1] == nums[k];
    assert prefix[..|prefix| - 1] == nums[..k];
  }

  /** One round adds a building exactly when its number had no match. */
  lemma CreatedStep(propertyId: DocId, existing: map<string, DocId>, nums: seq<string>, k: nat,
                    ids: map<string, DocId>, ids': map<string, DocId>,
                    start: seq<Doc<BuildingData>>, before: seq<Doc<BuildingData>>, after: seq<Doc<BuildingData>>)
    requires k < |nums| && nums[k] !in nums[..k]
    requires forall n | n in nums[..k] :: n in ids
    requires forall n | n in nums[..k + 1] :: n in ids'
    requires forall n | n in ids && n != nums[k] :: n in ids' && ids'[n] == ids[n]
    requires before == start + Created(propertyId, existing, ids, nums[..k])
    requires after == before + CreatedFor(propertyId, existing, ids'[nums[k]], nums[k])
    ensures after == start + Created(propertyId, existing, ids', nums[..k + 1])
  {
    CreatedAgree(propertyId, existing, ids, ids', nums[..k]);
    CreatedSnoc(propertyId, existing, ids', nums, k);
  }

  /**
   * The loop over `buildingNames` after its first `k` numbers: each has an id,
   * the existing one or that of a new building named for it, and the new
   * buildings are the only ones appended to `start` to give `now`.
   */
  ghost predicate Resolving(start: seq<Doc<BuildingData>>, now: seq<Doc<BuildingData>>, propertyId: DocId,
                            existing: map<string, DocId>, ids: map<string, DocId>, nums: seq<string>, k: nat)
    requires k <= |nums|
  {
    ids.Keys == (set num | num in nums[..k])
    && (forall num | num in ids && num in existing :: ids[num] == existing[num])
    && (forall num | num in ids && num !in existing ::
          Doc(ids[num], BuildingData(propertyId, Some(BuildingName(num)))) in now)
    && (forall n | n in nums[..k] :: n in ids)
    && now == start + Created(propertyId, existing, ids, nums[..k])
  }

  /** One round of the loop, as ResolveOne describes it, resolves one more number. */
  lemma ResolvingStep(start: seq<Doc<BuildingData>>, before: seq<Doc<BuildingData>>, after: seq<Doc<BuildingData>>,
                      propertyId: DocId, existing: map<string, DocId>, nums: seq<string>, k: nat,
                      ids: map<string, DocId>, ids': map<string, DocId>)
    requires k < |nums| && Distinct(nums)
    requires Resolving(start, before, propertyId, existing, ids, nums, k)
    requires ids'.Keys == ids.Keys + {nums[k]}
    requires forall n | n in ids && n != nums[k] :: ids'[n] == ids[n]
    requires nums[k] in existing ==> ids'[nums[k]] == existing[nums[k]] && after == before
    requires nums[k] !in existing ==>
      after == before + [Doc(ids'[nums[k]], BuildingData(propertyId, Some(BuildingName(nums[k]))))]
    requires after == before + CreatedFor(propertyId, existing, ids'[nums[k]], nums[k])
    ensures Resolving(start, after, propertyId, existing, ids', nums, k + 1)
  {
    KeysStep(nums, k, k + 1, ids, ids');
    IdsStep(propertyId, existing, nums[k], ids, ids', before, after);
    FreshNumber(nums, k);
    CreatedStep(propertyId, existing, nums, k, ids, ids', start, before, after);
  }

  /** The loop over `buildingNames`: found or created, every number of `nums` gets an id. */
  method ResolveBuildings(db: Db, propertyId: DocId, existing: map<string, DocId>, nums: seq<string>)
    returns (r: Result<map<string, DocId>, StoreError>)
    requires db.Valid() && Distinct(nums)
    modifies db`calls, db`nextId, db`buildings
    ensures db.Valid()
    ensures db.faults == {} ==> r.Success?
    ensures Grew(old(db.buildings), db.buildings)
    ensures r.Success? ==> r.value.Keys == set num | num in nums
    ensures r.Success? ==> forall num | num in nums && num in existing :: r.value[num] == existing[num]
    ensures r.Success? ==> forall num | num in nums && num !in existing ::
      Doc(r.value[num], BuildingData(propertyId, Some(BuildingName(num)))) in db.buildings
    ensures r.Success? ==> db.buildings == old(db.buildings) + Created(propertyId, existing, r.value, nums)
    ensures old(db.calls) <= db.calls && (r.Failure? <==> Faulted(db.faults, old(db.calls), db.calls))
  {
    var ids: map<string, DocId> := map[];
    for k := 0 to |nums|
      invariant db.Valid()
      invariant old(db.calls) <= db.calls && !Faulted(db.faults, old(db.calls), db.calls)
      invariant Grew(old(db.buildings), db.buildings)
      invariant Resolving(old(db.buildings), db.buildings, propertyId, existing, ids, nums, k)
    {
      ghost var before, calls := db.buildings, db.calls;
      var next := ResolveOne(db, propertyId, existing, nums[k], ids);
      FaultedJoin(db.faults, old(db.calls), calls, db.calls);
      if next.Failure? {
        return Failure(next.error);
      }
      ResolvingStep(old(db.buildings), before, db.buildings, propertyId, existing, nums, k, ids, next.value);
      ids := next.value;
    }
    assert nums[..|nums|] == nums;
    r := Success(ids);
  }

  lemma BuildingNumbersDistinct()
    ensures Distinct(BuildingNumbers)
  {
  }

  // ---------------------------------------------------------------------------
  // Running the building step twice

  /** A created building `Building n` is matched by number n and by no other of the five numbers. */
  lemma CreatedMatchesOnly(propertyId: DocId, n: string, m: string)
    requires n in BuildingNumbers && m in BuildingNumbers
    ensures Matches(BuildingData(propertyId, Some(BuildingName(n))), m) <==> n == m
  {
    var s := BuildingName(n);
    MatchesIsContains(BuildingData(propertyId, Some(s)), m);
    if n == m {
      assert OccursAt(s, m, 9);
    } else {
      forall i | 0 <= i <= |s| ensures !OccursAt(s, m, i) {
        if i + 1 <= |s| {
          assert s[i..i + 1] == [s[i]];
          if i < 9 {
            assert s[i] in "Building ";
          }
        }
      }
    }
  }

  /**
   * `e` is what a second run matches once the numbers `ns` were resolved
   * over a first match `existing`: a number is found when it was found
   * before or created, with the same id as in the first run.
   */
  ghost predicate FoundAgain(e: map<string, DocId>, existing: map<string, DocId>, ids: map<string, DocId>, ns: seq<string>) {
    forall m | m in BuildingNumbers ::
      && (m in e <==> m in existing || m in ns)
      && (m in existing ==> m in e && e[m] == existing[m])
      && (m !in existing && m in ns ==> m in e && m in ids && e[m] == ids[m])
  }

  /** A round whose number was already found changes nothing a second run matches. */
  lemma FoundAgainKept(e: map<string, DocId>, existing: map<string, DocId>, ids: map<string, DocId>, ns: seq<string>, n: string)
    requires FoundAgain(e, existing, ids, ns) && n in existing
    ensures FoundAgain(e, existing, ids, ns + [n])
  {
  }

  /** A round that created `Building n` makes a second run find n, with the id it was created with. */
  lemma FoundAgainCreated(e: map<string, DocId>, existing: map<string, DocId>, ids: map<string, DocId>, ns: seq<string>,
                          n: string, propertyId: DocId)
    requires FoundAgain(e, existing, ids, ns) && n !in existing && n in BuildingNumbers && n in ids
    ensures FoundAgain(MatchInto(e, Doc(ids[n], BuildingData(propertyId, Some(BuildingName(n)))), BuildingNumbers),
                       existing, ids, ns + [n])
  {
    var d := Doc(ids[n], BuildingData(propertyId, Some(BuildingName(n))));
    forall m | m in BuildingNumbers
      ensures m in MatchInto(e, d, BuildingNumbers) <==> m in existing || m in ns + [n]
      ensures m in existing ==> m in MatchInto(e, d, BuildingNumbers) && MatchInto(e, d, BuildingNumbers)[m] == existing[m]
      ensures m !in existing && m in ns + [n] ==>
        m in MatchInto(e, d, BuildingNumbers) && m in ids && MatchInto(e, d, BuildingNumbers)[m] == ids[m]
    {
      MatchIntoAt(e, d, BuildingNumbers, m);
      CreatedMatchesOnly(propertyId, n, m);
    }
  }

  /** The matching over the documents a first run saw plus those it created for the numbers `ns`. */
  lemma {:induction false} ExistingAfterCreated(docs: seq<Doc<BuildingData>>, propertyId: DocId,
                                                ids: map<string, DocId>, ns: seq<string>)
    requires forall n | n in ns :: n in BuildingNumbers && n in ids
    ensures FoundAgain(Existing(docs + Created(propertyId, Existing(docs), ids, ns)), Existing(docs), ids, ns)
  {
    var existing := Existing(docs);
    if ns == [] {
      assert docs + Created(propertyId, existing, ids, ns) == docs;
    } else {
      var init, n := ns[..|ns| - 1], ns[|ns| - 1];
      assert ns == init + [n];
      ExistingAfterCreated(docs, propertyId, ids, init);
      var before := docs + Created(propertyId, existing, ids, init);
      var after := docs + Created(propertyId, existing, ids, ns);
      if n in existing {
        assert after == before;
        FoundAgainKept(Existing(before), existing, ids, init, n);
      } else {
        var d := Doc(ids[n], BuildingData(propertyId, Some(BuildingName(n))));
        assert after == before + [d];
        assert after[..|after| - 1] == before;
        FoundAgainCreated(Existing(before), existing, ids, init, n, propertyId);
      }
    }
  }

  /**
   * Building resolution is idempotent: after a successful run, the buildings
   * query of a second run finds each of the five numbers, with the id the
   * first run gave it, so the second run creates nothing.
   */
  lemma ResolveIdempotent(buildings: seq<Doc<BuildingData>>, propertyId: DocId, ids: map<string, DocId>)
    requires ids.Keys == set n | n in BuildingNumbers
    requires forall n | n in BuildingNumbers && n in Existing(OfProperty(buildings, propertyId)) ::
      ids[n] == Existing(OfProperty(buildings, propertyId))[n]
    ensures var after := buildings + Created(propertyId, Existing(OfProperty(buildings, propertyId)), ids, BuildingNumbers);
      Existing(OfProperty(after, propertyId)) == ids
      && Created(propertyId, Existing(OfProperty(after, propertyId)), ids, BuildingNumbers) == []
  {
    var docs := OfProperty(buildings, propertyId);
    var created := Created(propertyId, Existing(docs), ids, BuildingNumbers);
    QueryAfterCreated(buildings, propertyId, Existing(docs), ids);
    ExistingAfterCreated(docs, propertyId, ids, BuildingNumbers);
    ExistingKeys(docs + created);
    FoundAll(Existing(docs + created), Existing(docs), ids);
    CreatedNone(propertyId, ids, ids, BuildingNumbers);
  }

  /** The buildings query of a second run sees the first run's documents, then those it created. */
  lemma QueryAfterCreated(buildings: seq<Doc<BuildingData>>, propertyId: DocId, existing: map<string, DocId>, ids: map<string, DocId>)
    requires forall n | n in BuildingNumbers :: n in ids
    ensures OfProperty(buildings + Created(propertyId, existing, ids, BuildingNumbers), propertyId)
         == OfProperty(buildings, propertyId) + Created(propertyId, existing, ids, BuildingNumbers)
  {
    var created := Created(propertyId, existing, ids, BuildingNumbers);
    CreatedOfProperty(propertyId, existing, ids, BuildingNumbers);
    OfPropertyAll(created, propertyId);
    OfPropertyAppend(buildings, created, propertyId);
  }

  /** Only the five numbers are ever matched. */
  lemma ExistingKeys(docs: seq<Doc<BuildingData>>)
    ensures forall m | m in Existing(docs) :: m in BuildingNumbers
  {
    forall m | m in Existing(docs) ensures m in BuildingNumbers {
      ExistingMeaning(docs, m);
    }
  }

  /** Once all five numbers are found again with the first run's ids, the match is exactly those ids. */
  lemma FoundAll(e: map<string, DocId>, existing: map<string, DocId>, ids: map<string, DocId>)
    requires FoundAgain(e, existing, ids, BuildingNumbers)
    requires forall m | m in e :: m in BuildingNumbers
    requires ids.Keys == set n | n in BuildingNumbers
    requires forall n | n in BuildingNumbers && n in existing :: ids[n] == existing[n]
    ensures e == ids
  {
  }

  lemma {:induction false} CreatedOfProperty(propertyId: DocId, existing: map<string, DocId>, ids: map<string, DocId>, nums: seq<string>)
    requires forall n | n in nums :: n in ids
    ensures forall d | d in Created(propertyId, existing, ids, nums) :: d.data.propertyId == propertyId
  {
    if nums != [] {
      CreatedOfProperty(propertyId, existing, ids, nums[..|nums| - 1]);
    }
  }

  // ---------------------------------------------------------------------------
  // One tenant

  const DefaultTenantType := "Commercial"
  const DefaultStatus := "Active"
  const DefaultClassification := "Secondary"

  /** The tenant document: type and status default, the other optional fields are null when falsy. */
  function NewTenant(t: TenantIn): (r: TenantData)
    ensures r.tenantName == t.tenantName
    ensures r.tenantType == Some(if Truthy(t.tenantType) then t.tenantType.value else DefaultTenantType)
    ensures r.status == Some(if Truthy(t.status) then t.status.value else DefaultStatus)
    ensures r.mailingAddress == (if Truthy(t.mailingAddress) then t.mailingAddress else None)
    ensures r.notes == (if Truthy(t.notes) then t.notes else None)
    ensures r.taxId == (if Truthy(t.taxId) then t.taxId else None)
    ensures r.businessType == (if Truthy(t.businessType) then t.businessType else None)
    ensures r.website == (if Truthy(t.website) then t.website else None)
    ensures r.numberOfEmployees ==
      (if t.numberOfEmployees.Some? && t.numberOfEmployees.value != 0 then t.numberOfEmployees else None)
  {
    TenantData(
      t.tenantName,
      Some(OrDefault(t.tenantType, DefaultTenantType)),
      Some(OrDefault(t.status, DefaultStatus)),
      OrNull(t.mailingAddress),
      OrNull(t.notes),
      OrNull(t.taxId),
      OrNull(t.businessType),
      NumberOrNull(t.numberOfEmployees),
      OrNull(t.website))
  }

  /** A contact is written unless its name is missing, blank or `TBD`. */
  predicate KeepContact(c: ContactIn) {
    Truthy(c.contactName) && !JsBlank(c.contactName.value) && c.contactName.value != "TBD"
  }

  function NewContact(tenantId: DocId, c: ContactIn): ContactData {
    ContactData(
      tenantId,
      c.contactName,
      OrNull(c.contactEmail),
      OrNull(c.contactPhone),
      OrNull(c.contactTitle),
      Some(if c.classifications.Some? then c.classifications.value else [DefaultClassification]),
      OrNull(c.notes))
  }

  /** The contact documents written for a tenant, in order. */
  function KeptContacts(tenantId: DocId, cs: seq<ContactIn>): seq<ContactData> {
    if cs == [] then []
    else
      var c := cs[|cs| - 1];
      KeptContacts(tenantId, cs[..|cs| - 1]) + (if KeepContact(c) then [NewContact(tenantId, c)] else [])
  }

  /**
   * A contact document is written exactly for each kept contact; each one is
   * linked to the tenant, has a usable name and has classifications.
   */
  lemma {:induction false} KeptContactsMeaning(tenantId: DocId, cs: seq<ContactIn>)
    ensures forall x :: x in KeptContacts(tenantId, cs) <==> exists c | c in cs :: KeepContact(c) && x == NewContact(tenantId, c)
    ensures forall x | x in KeptContacts(tenantId, cs) ::
      x.tenantId == tenantId && x.contactName.Some? && !JsBlank(x.contactName.value)
      && x.contactName.value != "TBD" && x.classifications.Some?
  {
    if cs != [] {
      var init := cs[..|cs| - 1];
      KeptContactsMeaning(tenantId, init);
      forall x | x in KeptContacts(tenantId, cs)
        ensures exists c | c in cs :: KeepContact(c) && x == NewContact(tenantId, c)
      {
        if x in KeptContacts(tenantId, init) {
          var c :| c in init && KeepContact(c) && x == NewContact(tenantId, c);
          assert c in cs;
        } else {
          assert cs[|cs| - 1] in cs;
        }
      }
      forall x | exists c | c in cs :: KeepContact(c) && x == NewContact(tenantId, c)
        ensures x in KeptContacts(tenantId, cs)
      {
        var c :| c in cs && KeepContact(c) && x == NewContact(tenantId, c);
        if c != cs[|cs| - 1] {
          assert cs == init + [cs[|cs| - 1]];
          assert c in init;
        }
      }
    }
  }

  /** The for-of over a tenant's contacts. */
  method ImportContacts(db: Db, tenantId: DocId, cs: seq<ContactIn>) returns (r: Result<(), StoreError>)
    requires db.Valid()
    modifies db`calls, db`nextId, db`contacts
    ensures db.Valid()
    ensures db.faults == {} ==> r.Success?
    ensures Grew(old(db.contacts), db.contacts)
    ensures forall d | d in db.contacts[|old(db.contacts)|..] :: d.data.tenantId == tenantId
    ensures r.Success? ==> Data(db.contacts) == Data(old(db.contacts)) + KeptContacts(tenantId, cs)
    ensures old(db.calls) <= db.calls && (r.Failure? <==> Faulted(db.faults, old(db.calls), db.calls))
  {
    for i := 0 to |cs|
      invariant db.Valid()
      invariant old(db.calls) <= db.calls && !Faulted(db.faults, old(db.calls), db.calls)
      invariant Grew(old(db.contacts), db.contacts)
      invariant forall d | d in db.contacts[|old(db.contacts)|..] :: d.data.tenantId == tenantId
      invariant Data(db.contacts) == Data(old(db.contacts)) + KeptContacts(tenantId, cs[..i])
    {
      assert cs[..i + 1][..i] == cs[..i];
      if !KeepContact(cs[i]) {
        continue;
      }
      ghost var before, calls := db.contacts, db.calls;
      var added := db.AddContact(NewContact(tenantId, cs[i]));
      FaultedJoin(db.faults, old(db.calls), calls, db.calls);
      if added.Failure? {
        return Failure(added.error);
      }
      DataAppend(before, [Doc(added.value, NewContact(tenantId, cs[i]))]);
      assert db.contacts[|old(db.contacts)|..] == before[|old(db.contacts)|..] + [Doc(added.value, NewContact(tenantId, cs[i]))];
    }
    assert cs[..|cs|] == cs;
    r := Success(());
  }

  /** An occupancy is written only when its building number is set and was resolved. */
  predicate Placed(o: OccupancyIn, buildingIds: map<string, DocId>) {
    Truthy(o.buildingNumber) && o.buildingNumber.value in buildingIds
  }

  /** The occupancies of a tenant that are written, in order. */
  function PlacedOccupancies(os: seq<OccupancyIn>, buildingIds: map<string, DocId>): seq<OccupancyIn> {
    if os == [] then []
    else
      var o := os[|os| - 1];
      PlacedOccupancies(os[..|os| - 1], buildingIds) + (if Placed(o, buildingIds) then [o] else [])
  }

  /**
   * An occupancy is written exactly when it is placed; once the five
   * buildings are resolved, that is when its building number is one of them.
   */
  lemma {:induction false} PlacedMeaning(os: seq<OccupancyIn>, buildingIds: map<string, DocId>)
    ensures forall o :: o in PlacedOccupancies(os, buildingIds) <==> o in os && Placed(o, buildingIds)
    ensures buildingIds.Keys == (set num | num in BuildingNumbers) ==>
      forall o | o in PlacedOccupancies(os, buildingIds) :: o.buildingNumber.Some? && o.buildingNumber.value in BuildingNumbers
  {
    if os != [] {
      var init := os[..|os| - 1];
      PlacedMeaning(init, buildingIds);
      assert os == init + [os[|os| - 1]];
      forall o | o in os && Placed(o, buildingIds)
        ensures o in PlacedOccupancies(os, buildingIds)
      {
        if o != os[|os| - 1] {
          assert o in init;
        }
      }
    }
  }

  /** `date ? Timestamp.fromDate(new Date(date)) : null` */
  function DateOrNull(date: Option<string>): Option<Timestamp> {
    if Truthy(date) then Some(FromDate(date.value)) else None
  }

  function NewOccupancy(tenantId: DocId, propertyId: DocId, unitId: Option<DocId>, o: OccupancyIn): OccupancyData {
    OccupancyData(tenantId, propertyId, unitId, DateOrNull(o.moveInDate), DateOrNull(o.moveOutDate),
      Some(OrDefault(o.status, DefaultStatus)), OrNull(o.notes))
  }

  /**
   * `d` is the occupancy document written for `o` in building `buildingId`:
   * without a unit number it has no unit; with one, its unit is in `units`
   * under that property, building and number.
   */
  ghost predicate OccupancyFrom(d: OccupancyData, o: OccupancyIn, tenantId: DocId, propertyId: DocId, buildingId: DocId,
                                units: seq<Doc<UnitData>>) {
    d == NewOccupancy(tenantId, propertyId, d.unitId, o)
    && (Truthy(o.unitNumber) ==> d.unitId.Some? && UnitHas(units, d.unitId.value, propertyId, buildingId, o.unitNumber.value))
    && (!Truthy(o.unitNumber) ==> d.unitId.None?)
  }

  lemma OccupancyFromGrew(d: OccupancyData, o: OccupancyIn, tenantId: DocId, propertyId: DocId, buildingId: DocId,
                          units: seq<Doc<UnitData>>, more: seq<Doc<UnitData>>)
    requires OccupancyFrom(d, o, tenantId, propertyId, buildingId, units) && Grew(units, more)
    ensures OccupancyFrom(d, o, tenantId, propertyId, buildingId, more)
  {
    if Truthy(o.unitNumber) {
      UnitHasGrew(units, more, d.unitId.value, propertyId, buildingId, o.unitNumber.value);
    }
  }

  /**
   * The unit lookups the occupancies `os` make, in order: the building id and
   * unit number of each placed occupancy that has a unit number.
   */
  function UnitKeys(os: seq<OccupancyIn>, buildingIds: map<string, DocId>): seq<(DocId, string)> {
    if os == [] then []
    else
      var o := os[|os| - 1];
      UnitKeys(os[..|os| - 1], buildingIds)
      + (if Placed(o, buildingIds) && Truthy(o.unitNumber) then [(buildingIds[o.buildingNumber.value], o.unitNumber.value)] else [])
  }

  lemma UnitKeysSnoc(os: seq<OccupancyIn>, o: OccupancyIn, buildingIds: map<string, DocId>)
    ensures UnitKeys(os + [o], buildingIds) == UnitKeys(os, buildingIds)
      + (if Placed(o, buildingIds) && Truthy(o.unitNumber) then [(buildingIds[o.buildingNumber.value], o.unitNumber.value)] else [])
  {
    assert (os + [o])[..|os|] == os;
  }

  /**
   * `units'` is `units` after the unit step of occupancy `o` in building `b`:
   * with a unit number, the lookup that gave `unitId`; without, no change.
   */
  ghost predicate UnitLookup(units: seq<Doc<UnitData>>, units': seq<Doc<UnitData>>, p: DocId, b: DocId, o: OccupancyIn,
                             unitId: Option<DocId>) {
    if Truthy(o.unitNumber) then unitId.Some? && LookedUp(units, units', p, b, o.unitNumber.value, unitId.value)
    else units' == units
  }

  /** The unit lookup of occupancy `os[i]`, if it makes one, extends the units' data by that lookup. */
  lemma UnitsStep(us0: seq<UnitData>, units: seq<Doc<UnitData>>, units': seq<Doc<UnitData>>, os: seq<OccupancyIn>, i: nat,
                  propertyId: DocId, buildingIds: map<string, DocId>, unitId: Option<DocId>)
    requires i < |os| && Data(units) == UnitsFor(us0, propertyId, UnitKeys(os[..i], buildingIds))
    requires !Placed(os[i], buildingIds) ==> units' == units
    requires Placed(os[i], buildingIds) ==> UnitLookup(units, units', propertyId, buildingIds[os[i].buildingNumber.value], os[i], unitId)
    ensures Data(units') == UnitsFor(us0, propertyId, UnitKeys(os[..i + 1], buildingIds))
  {
    assert os[..i + 1] == os[..i] + [os[i]];
    UnitKeysSnoc(os[..i], os[i], buildingIds);
    var o := os[i];
    if Placed(o, buildingIds) && Truthy(o.unitNumber) {
      var b := buildingIds[o.buildingNumber.value];
      LookedUpData(units, units', propertyId, b, o.unitNumber.value, unitId.value);
      UnitsForSnoc(us0, propertyId, UnitKeys(os[..i], buildingIds), b, o.unitNumber.value);
    } else {
      assert UnitKeys(os[..i] + [o], buildingIds) == UnitKeys(os[..i], buildingIds) + [];
      assert UnitKeys(os[..i + 1], buildingIds) == UnitKeys(os[..i], buildingIds);
    }
  }

  /** The body of the for-of over occupancies, for a placed occupancy in building `buildingId`. */
  method ImportOccupancy(db: Db, propertyId: DocId, buildingId: DocId, tenantId: DocId, o: OccupancyIn)
    returns (r: Result<DocId, StoreError>)
    requires db.Valid()
    modifies db`calls, db`nextId, db`units, db`occupancies
    ensures db.Valid()
    ensures db.faults == {} ==> r.Success?
    ensures Grew(old(db.units), db.units)
    ensures UniqueUnits(old(db.units)) ==> UniqueUnits(db.units)
    ensures !Truthy(o.unitNumber) ==> db.units == old(db.units)
    ensures Truthy(o.unitNumber) ==> AtMostCreated(old(db.units), db.units, propertyId, buildingId, o.unitNumber.value)
    ensures r.Failure? ==> db.occupancies == old(db.occupancies)
    ensures r.Success? ==> |db.occupancies| == |old(db.occupancies)| + 1 && Grew(old(db.occupancies), db.occupancies)
    ensures r.Success? ==> OccupancyFrom(db.occupancies[|old(db.occupancies)|].data, o, tenantId, propertyId, buildingId, db.units)
    ensures r.Success? ==>
      UnitLookup(old(db.units), db.units, propertyId, buildingId, o, db.occupancies[|old(db.occupancies)|].data.unitId)
    ensures old(db.calls) <= db.calls && (r.Failure? <==> Faulted(db.faults, old(db.calls), db.calls))
  {
    var unitId: Option<DocId> := None;
    if Truthy(o.unitNumber) {
      var unit := FindOrCreateUnit(db, propertyId, buildingId, o.unitNumber.value);
      if unit.Failure? {
        return Failure(unit.error);
      }
      unitId := Some(unit.value);
    }
    var d := NewOccupancy(tenantId, propertyId, unitId, o);
    ghost var calls := db.calls;
    r := db.AddOccupancy(d);
    FaultedJoin(db.faults, old(db.calls), calls, db.calls);
  }

  /** `PlacedOccupancies(os)[..n]` were written from `start` on, each as `OccupancyFrom` describes. */
  ghost predicate WroteOccupancies(occs: seq<Doc<OccupancyData>>, start: nat, placed: seq<OccupancyIn>, tenantId: DocId,
                                   propertyId: DocId, buildingIds: map<string, DocId>, units: seq<Doc<UnitData>>) {
    |occs| == start + |placed|
    && forall k | 0 <= k < |placed| ::
      Placed(placed[k], buildingIds)
      && OccupancyFrom(occs[start + k].data, placed[k], tenantId, propertyId, buildingIds[placed[k].buildingNumber.value], units)
  }

  lemma WroteOccupanciesStep(occs: seq<Doc<OccupancyData>>, more: seq<Doc<OccupancyData>>, start: nat,
                             placed: seq<OccupancyIn>, o: OccupancyIn, tenantId: DocId, propertyId: DocId,
                             buildingIds: map<string, DocId>, units: seq<Doc<UnitData>>, units': seq<Doc<UnitData>>)
    requires WroteOccupancies(occs, start, placed, tenantId, propertyId, buildingIds, units)
    requires Grew(units, units') && Placed(o, buildingIds)
    requires |more| == |occs| + 1 && Grew(occs, more)
    requires OccupancyFrom(more[|occs|].data, o, tenantId, propertyId, buildingIds[o.buildingNumber.value], units')
    ensures WroteOccupancies(more, start, placed + [o], tenantId, propertyId, buildingIds, units')
  {
    var p := placed + [o];
    forall k | 0 <= k < |p|
      ensures Placed(p[k], buildingIds)
      ensures OccupancyFrom(more[start + k].data, p[k], tenantId, propertyId, buildingIds[p[k].buildingNumber.value], units')
    {
      if k < |placed| {
        assert p[k] == placed[k];
        assert more[start + k] == occs[start + k];
        OccupancyFromGrew(occs[start + k].data, placed[k], tenantId, propertyId,
          buildingIds[placed[k].buildingNumber.value], units, units');
      }
    }
  }

  lemma WroteOccupanciesGrew(occs: seq<Doc<OccupancyData>>, start: nat, placed: seq<OccupancyIn>, tenantId: DocId,
                             propertyId: DocId, buildingIds: map<string, DocId>, units: seq<Doc<UnitData>>, units': seq<Doc<UnitData>>)
    requires WroteOccupancies(occs, start, placed, tenantId, propertyId, buildingIds, units) && Grew(units, units')
    ensures WroteOccupancies(occs, start, placed, tenantId, propertyId, buildingIds, units')
  {
    forall k | 0 <= k < |placed|
      ensures OccupancyFrom(occs[start + k].data, placed[k], tenantId, propertyId, buildingIds[placed[k].buildingNumber.value], units')
    {
      OccupancyFromGrew(occs[start + k].data, placed[k], tenantId, propertyId,
        buildingIds[placed[k].buildingNumber.value], units, units');
    }
  }

  /**
   * The occupancy loop after its first `i` occupancies, from `occs0` and
   * `units0` on: the placed ones among them were written, linked to the
   * tenant, and the units are those their lookups give.
   */
  ghost predicate Placing(occs0: seq<Doc<OccupancyData>>, occs: seq<Doc<OccupancyData>>, units0: seq<Doc<UnitData>>,
                          units: seq<Doc<UnitData>>, os: seq<OccupancyIn>, i: nat, tenantId: DocId, propertyId: DocId,
                          buildingIds: map<string, DocId>) {
    i <= |os| && Grew(units0, units) && Grew(occs0, occs)
    && (UniqueUnits(units0) ==> UniqueUnits(units))
    && (forall d | d in occs[|occs0|..] :: d.data.tenantId == tenantId && d.data.propertyId == propertyId)
    && WroteOccupancies(occs, |occs0|, PlacedOccupancies(os[..i], buildingIds), tenantId, propertyId, buildingIds, units)
    && Data(units) == UnitsFor(Data(units0), propertyId, UnitKeys(os[..i], buildingIds))
  }

  /** Skipping an occupancy that is not placed. */
  lemma PlacingSkip(occs0: seq<Doc<OccupancyData>>, occs: seq<Doc<OccupancyData>>, units0: seq<Doc<UnitData>>,
                    units: seq<Doc<UnitData>>, os: seq<OccupancyIn>, i: nat, tenantId: DocId, propertyId: DocId,
                    buildingIds: map<string, DocId>)
    requires Placing(occs0, occs, units0, units, os, i, tenantId, propertyId, buildingIds)
    requires i < |os| && !Placed(os[i], buildingIds)
    ensures Placing(occs0, occs, units0, units, os, i + 1, tenantId, propertyId, buildingIds)
  {
    assert os[..i + 1][..i] == os[..i];
    UnitsStep(Data(units0), units, units, os, i, propertyId, buildingIds, None);
  }

  /** Writing a placed occupancy, as `ImportOccupancy` does when it succeeds. */
  lemma PlacingStep(occs0: seq<Doc<OccupancyData>>, occs: seq<Doc<OccupancyData>>, occs': seq<Doc<OccupancyData>>,
                    units0: seq<Doc<UnitData>>, units: seq<Doc<UnitData>>, units': seq<Doc<UnitData>>,
                    os: seq<OccupancyIn>, i: nat, tenantId: DocId, propertyId: DocId, buildingIds: map<string, DocId>)
    requires Placing(occs0, occs, units0, units, os, i, tenantId, propertyId, buildingIds)
    requires i < |os| && Placed(os[i], buildingIds)
    requires Grew(units, units') && (UniqueUnits(units) ==> UniqueUnits(units'))
    requires |occs'| == |occs| + 1 && Grew(occs, occs')
    requires OccupancyFrom(occs'[|occs|].data, os[i], tenantId, propertyId, buildingIds[os[i].buildingNumber.value], units')
    requires UnitLookup(units, units', propertyId, buildingIds[os[i].buildingNumber.value], os[i], occs'[|occs|].data.unitId)
    ensures Placing(occs0, occs', units0, units', os, i + 1, tenantId, propertyId, buildingIds)
  {
    assert os[..i + 1][..i] == os[..i];
    UnitsStep(Data(units0), units, units', os, i, propertyId, buildingIds, occs'[|occs|].data.unitId);
    WroteOccupanciesStep(occs, occs', |occs0|, PlacedOccupancies(os[..i], buildingIds), os[i],
      tenantId, propertyId, buildingIds, units, units');
    assert occs'[|occs0|..] == occs[|occs0|..] + [occs'[|occs|]];
  }

  /** The for-of over a tenant's occupancies: skips the unplaced ones and writes the others. */
  method ImportOccupancies(db: Db, propertyId: DocId, buildingIds: map<string, DocId>, tenantId: DocId, os: seq<OccupancyIn>)
    returns (r: Result<(), StoreError>)
    requires db.Valid()
    modifies db`calls, db`nextId, db`units, db`occupancies
    ensures db.Valid()
    ensures db.faults == {} ==> r.Success?
    ensures Grew(old(db.units), db.units) && Grew(old(db.occupancies), db.occupancies)
    ensures UniqueUnits(old(db.units)) ==> UniqueUnits(db.units)
    ensures forall d | d in db.occupancies[|old(db.occupancies)|..] :: d.data.tenantId == tenantId && d.data.propertyId == propertyId
    ensures r.Success? ==>
      WroteOccupancies(db.occupancies, |old(db.occupancies)|, PlacedOccupancies(os, buildingIds), tenantId, propertyId, buildingIds, db.units)
    ensures r.Success? ==> Data(db.units) == UnitsFor(Data(old(db.units)), propertyId, UnitKeys(os, buildingIds))
    ensures old(db.calls) <= db.calls && (r.Failure? <==> Faulted(db.faults, old(db.calls), db.calls))
  {
    for i := 0 to |os|
      invariant db.Valid()
      invariant old(db.calls) <= db.calls && !Faulted(db.faults, old(db.calls), db.calls)
      invariant Placing(old(db.occupancies), db.occupancies, old(db.units), db.units, os, i, tenantId, propertyId, buildingIds)
    {
      var o := os[i];
      if !Truthy(o.buildingNumber) || o.buildingNumber.value !in buildingIds {
        PlacingSkip(old(db.occupancies), db.occupancies, old(db.units), db.units, os, i, tenantId, propertyId, buildingIds);
        continue;
      }
      ghost var units, occs, calls := db.units, db.occupancies, db.calls;
      var added := ImportOccupancy(db, propertyId, buildingIds[o.buildingNumber.value], tenantId, o);
      FaultedJoin(db.faults, old(db.calls), calls, db.calls);
      if added.Failure? {
        return Failure(added.error);
      }
      PlacingStep(old(db.occupancies), occs, db.occupancies, old(db.units), units, db.units, os, i, tenantId, propertyId, buildingIds);
    }
    assert os[..|os|] == os;
    r := Success(());
  }

  /**
   * Between marks `m` and `m'`, tenant `t` was written in full: its tenant
   * document at position `m.tenants`, then its kept contacts, then its placed
   * occupancies, all linked to that document; the only units added are those
   * its occupancies' lookups created.
   */
  ghost predicate WroteTenant(ts: seq<Doc<TenantData>>, cs: seq<Doc<ContactData>>, os: seq<Doc<OccupancyData>>,
                              units: seq<Doc<UnitData>>, m: Mark, m': Mark, t: TenantIn,
                              propertyId: DocId, buildingIds: map<string, DocId>) {
    m.units <= m'.units <= |units|
    && Data(units[..m'.units]) == UnitsFor(Data(units[..m.units]), propertyId, UnitKeys(t.occupancies, buildingIds))
    && m'.tenants == m.tenants + 1 <= |ts|
    && m.contacts <= m'.contacts <= |cs| && m.occupancies <= m'.occupancies <= |os|
    && ts[m.tenants].data == NewTenant(t)
    && Data(cs[m.contacts..m'.contacts]) == KeptContacts(ts[m.tenants].id, t.contacts)
    && WroteOccupancies(os[..m'.occupancies], m.occupancies, PlacedOccupancies(t.occupancies, buildingIds),
      ts[m.tenants].id, propertyId, buildingIds, units)
  }

  lemma WroteTenantGrew(ts: seq<Doc<TenantData>>, cs: seq<Doc<ContactData>>, os: seq<Doc<OccupancyData>>,
                        units: seq<Doc<UnitData>>, ts': seq<Doc<TenantData>>, cs': seq<Doc<ContactData>>,
                        os': seq<Doc<OccupancyData>>, units': seq<Doc<UnitData>>, m: Mark, m': Mark, t: TenantIn,
                        propertyId: DocId, buildingIds: map<string, DocId>)
    requires WroteTenant(ts, cs, os, units, m, m', t, propertyId, buildingIds)
    requires Grew(ts, ts') && Grew(cs, cs') && Grew(os, os') && Grew(units, units')
    ensures WroteTenant(ts', cs', os', units', m, m', t, propertyId, buildingIds)
  {
    assert ts'[m.tenants] == ts[m.tenants];
    assert cs'[m.contacts..m'.contacts] == cs[m.contacts..m'.contacts];
    assert os'[..m'.occupancies] == os[..m'.occupancies];
    assert units'[..m'.units] == units[..m'.units] && units'[..m.units] == units[..m.units];
    WroteOccupanciesGrew(os[..m'.occupancies], m.occupancies, PlacedOccupancies(t.occupancies, buildingIds),
      ts[m.tenants].id, propertyId, buildingIds, units, units');
  }

  /**
   * From `t0`, `c0`, `o0`, `u0` to `t`, `c`, `o`, `u` the collections only
   * grew, units stayed unique, and every contact and occupancy added belongs
   * to a tenant added, every occupancy in property `propertyId`.
   */
  ghost predicate Appended(t0: seq<Doc<TenantData>>, c0: seq<Doc<ContactData>>, o0: seq<Doc<OccupancyData>>,
                           u0: seq<Doc<UnitData>>, t: seq<Doc<TenantData>>, c: seq<Doc<ContactData>>,
                           o: seq<Doc<OccupancyData>>, u: seq<Doc<UnitData>>, propertyId: DocId) {
    Grew(u0, u) && Grew(t0, t) && Grew(c0, c) && Grew(o0, o)
    && (UniqueUnits(u0) ==> UniqueUnits(u))
    && Linked(c0, c, o0, o, t0, t, propertyId)
  }

  lemma AppendedStep(t0: seq<Doc<TenantData>>, c0: seq<Doc<ContactData>>, o0: seq<Doc<OccupancyData>>,
                     u0: seq<Doc<UnitData>>, t1: seq<Doc<TenantData>>, c1: seq<Doc<ContactData>>,
                     o1: seq<Doc<OccupancyData>>, u1: seq<Doc<UnitData>>, t2: seq<Doc<TenantData>>,
                     c2: seq<Doc<ContactData>>, o2: seq<Doc<OccupancyData>>, u2: seq<Doc<UnitData>>, propertyId: DocId)
    requires Appended(t0, c0, o0, u0, t1, c1, o1, u1, propertyId)
    requires Appended(t1, c1, o1, u1, t2, c2, o2, u2, propertyId)
    ensures Appended(t0, c0, o0, u0, t2, c2, o2, u2, propertyId)
  {
    LinkedStep(c0, c1, c2, o0, o1, o2, t0, t1, t2, propertyId);
  }

  /** The body of the tenant loop inside its `try`: the tenant, then its contacts, then its occupancies. */
  method ProcessTenant(db: Db, propertyId: DocId, buildingIds: map<string, DocId>, t: TenantIn)
    returns (r: Result<DocId, StoreError>)
    requires db.Valid()
    modifies db`calls, db`nextId, db`units, db`tenants, db`contacts, db`occupancies
    ensures db.Valid()
    ensures db.faults == {} ==> r.Success?
    ensures Appended(old(db.tenants), old(db.contacts), old(db.occupancies), old(db.units),
      db.tenants, db.contacts, db.occupancies, db.units, propertyId)
    ensures r.Success? ==> db.tenants == old(db.tenants) + [Doc(r.value, NewTenant(t))]
    ensures r.Success? ==>
      WroteTenant(db.tenants, db.contacts, db.occupancies, db.units, old(db.Here()), db.Here(), t, propertyId, buildingIds)
    ensures old(db.calls) <= db.calls && (r.Failure? <==> Faulted(db.faults, old(db.calls), db.calls))
  {
    var added := db.AddTenant(NewTenant(t));
    if added.Failure? {
      return Failure(added.error);
    }
    var tenantId := added.value;
    assert db.tenants[|old(db.tenants)|..] == [Doc(tenantId, NewTenant(t))];
    assert tenantId in IdSet(db.tenants[|old(db.tenants)|..]);
    ghost var c1 := db.calls;
    var contacts := ImportContacts(db, tenantId, t.contacts);
    FaultedJoin(db.faults, old(db.calls), c1, db.calls);
    if contacts.Failure? {
      return Failure(contacts.error);
    }
    ghost var c2 := db.calls;
    var occupancies := ImportOccupancies(db, propertyId, buildingIds, tenantId, t.occupancies);
    FaultedJoin(db.faults, old(db.calls), c2, db.calls);
    if occupancies.Failure? {
      return Failure(occupancies.error);
    }
    DataAfter(old(db.contacts), db.contacts, KeptContacts(tenantId, t.contacts));
    assert db.contacts[|old(db.contacts)|..|db.contacts|] == db.contacts[|old(db.contacts)|..];
    assert db.occupancies[..|db.occupancies|] == db.occupancies;
    assert db.units[..|db.units|] == db.units && db.units[..|old(db.units)|] == old(db.units);
    r := Success(tenantId);
  }

  // ---------------------------------------------------------------------------
  // The whole import

  /** What the run ends with: the early returns, or the two counters. */
  datatype Outcome =
    | LoadFailed
    | PropertyLookupFailed
    | PropertyMissing
    | BuildingsFailed
    | Completed(successCount: nat, errorCount: nat)

  /** Every tenant whose window in `marks` holds no throwing call was written in full. */
  ghost predicate WroteUnfaulted(ts: seq<Doc<TenantData>>, cs: seq<Doc<ContactData>>, os: seq<Doc<OccupancyData>>,
                                 units: seq<Doc<UnitData>>, faults: set<nat>, marks: seq<Mark>, tenants: seq<TenantIn>,
                                 propertyId: DocId, buildingIds: map<string, DocId>) {
    |marks| <= |tenants| + 1
    && forall i | 0 <= i < |marks| - 1 && !Faulted(faults, marks[i].calls, marks[i + 1].calls) ::
      WroteTenant(ts, cs, os, units, marks[i], marks[i + 1], tenants[i], propertyId, buildingIds)
  }

  lemma WroteUnfaultedStep(ts: seq<Doc<TenantData>>, cs: seq<Doc<ContactData>>, os: seq<Doc<OccupancyData>>,
                           units: seq<Doc<UnitData>>, ts': seq<Doc<TenantData>>, cs': seq<Doc<ContactData>>,
                           os': seq<Doc<OccupancyData>>, units': seq<Doc<UnitData>>, faults: set<nat>,
                           marks: seq<Mark>, m': Mark, tenants: seq<TenantIn>,
                           propertyId: DocId, buildingIds: map<string, DocId>)
    requires WroteUnfaulted(ts, cs, os, units, faults, marks, tenants, propertyId, buildingIds)
    requires Grew(ts, ts') && Grew(cs, cs') && Grew(os, os') && Grew(units, units')
    requires 1 <= |marks| <= |tenants|
    requires !Faulted(faults, marks[|marks| - 1].calls, m'.calls) ==>
      WroteTenant(ts', cs', os', units', marks[|marks| - 1], m', tenants[|marks| - 1], propertyId, buildingIds)
    ensures WroteUnfaulted(ts', cs', os', units', faults, marks + [m'], tenants, propertyId, buildingIds)
  {
    var more := marks + [m'];
    forall i | 0 <= i < |more| - 1 && !Faulted(faults, more[i].calls, more[i + 1].calls)
      ensures WroteTenant(ts', cs', os', units', more[i], more[i + 1], tenants[i], propertyId, buildingIds)
    {
      if i < |marks| - 1 {
        assert more[i] == marks[i] && more[i + 1] == marks[i + 1];
        WroteTenantGrew(ts, cs, os, units, ts', cs', os', units', marks[i], marks[i + 1], tenants[i], propertyId, buildingIds);
      }
    }
  }

  /** The tenant documents of a whole file, in order. */
  function NewTenants(ts: seq<TenantIn>): seq<TenantData> {
    seq(|ts|, i requires 0 <= i < |ts| => NewTenant(ts[i]))
  }

  /** The contact documents written for tenants `ts`, whose tenant documents are `written`. */
  function KeptAll(written: seq<Doc<TenantData>>, ts: seq<TenantIn>): seq<ContactData>
    requires |written| == |ts|
  {
    if ts == [] then []
    else KeptAll(written[..|ts| - 1], ts[..|ts| - 1]) + KeptContacts(written[|ts| - 1].id, ts[|ts| - 1].contacts)
  }

  /** With no failure, one more tenant extends the tenant and contact documents by that tenant's. */
  lemma NoFaultStep(t0: seq<Doc<TenantData>>, t1: seq<Doc<TenantData>>, t2: seq<Doc<TenantData>>,
                    c0: seq<Doc<ContactData>>, c1: seq<Doc<ContactData>>, c2: seq<Doc<ContactData>>,
                    tenants: seq<TenantIn>, i: nat, id: DocId)
    requires i < |tenants| && Grew(t0, t1) && AllWritten(t0, t1, c0, c1, tenants[..i])
    requires t2 == t1 + [Doc(id, NewTenant(tenants[i]))]
    requires Data(c2) == Data(c1) + KeptContacts(id, tenants[i].contacts)
    ensures AllWritten(t0, t2, c0, c2, tenants[..i + 1])
  {
    DataAppend(t1, [Doc(id, NewTenant(tenants[i]))]);
    assert NewTenants(tenants[..i + 1]) == NewTenants(tenants[..i]) + [NewTenant(tenants[i])];
    var w := t2[|t0|..];
    assert w[..i] == t1[|t0|..] && w[i].id == id;
    assert tenants[..i + 1][..i] == tenants[..i];
  }

  /** `NoFaultStep`, with the tenant's contacts given as the documents appended since `here`. */
  lemma NoFaultProgress(t0: seq<Doc<TenantData>>, c0: seq<Doc<ContactData>>, ts: seq<Doc<TenantData>>,
                        cs: seq<Doc<ContactData>>, ts': seq<Doc<TenantData>>, cs': seq<Doc<ContactData>>,
                        here: Mark, here': Mark, tenants: seq<TenantIn>, i: nat, id: DocId)
    requires i < |tenants| && Grew(t0, ts) && AllWritten(t0, ts, c0, cs, tenants[..i])
    requires ts' == ts + [Doc(id, NewTenant(tenants[i]))] && Grew(cs, cs')
    requires here.contacts == |cs| && here'.contacts == |cs'|
    requires Data(cs'[here.contacts..here'.contacts]) == KeptContacts(id, tenants[i].contacts)
    ensures AllWritten(t0, ts', c0, cs', tenants[..i + 1])
  {
    assert cs' == cs + cs'[here.contacts..here'.contacts];
    DataAppend(cs, cs'[here.contacts..here'.contacts]);
    NoFaultStep(t0, ts, ts', c0, cs, cs', tenants, i, id);
  }

  /**
   * `marks` give one window of calls per tenant of `tenants`, from `start`
   * up to `end`, the state the run ends in; `errors` of those windows hold
   * a throwing call, and every tenant whose window holds none was written
   * in full, with nothing written after the last window. Of what a window
   * with a throwing call wrote, only that it belongs to the run's tenants
   * (`Appended`) is stated, not which of the tenant's documents persisted.
   */
  ghost predicate TenantsWritten(ts: seq<Doc<TenantData>>, cs: seq<Doc<ContactData>>, os: seq<Doc<OccupancyData>>,
                                 units: seq<Doc<UnitData>>, faults: set<nat>, start: Mark, end: Mark, marks: seq<Mark>,
                                 tenants: seq<TenantIn>, errors: nat, propertyId: DocId, buildingIds: map<string, DocId>) {
    |marks| == |tenants| + 1 && Windows(marks, start, end)
    && errors == |FailedAt(faults, marks)|
    && WroteUnfaulted(ts, cs, os, units, faults, marks, tenants, propertyId, buildingIds)
  }

  /** Exactly the tenant documents of `tenants`, and after them their kept contacts, were appended. */
  ghost predicate AllWritten(t0: seq<Doc<TenantData>>, ts: seq<Doc<TenantData>>, c0: seq<Doc<ContactData>>,
                             cs: seq<Doc<ContactData>>, tenants: seq<TenantIn>) {
    |ts| == |t0| + |tenants| && Data(ts) == Data(t0) + NewTenants(tenants)
    && Data(cs) == Data(c0) + KeptAll(ts[|t0|..], tenants)
  }

  /** The tenant loop after its first `i` tenants, with `errors` counted so far. */
  ghost predicate Progress(t0: seq<Doc<TenantData>>, c0: seq<Doc<ContactData>>, ts: seq<Doc<TenantData>>,
                           cs: seq<Doc<ContactData>>, os: seq<Doc<OccupancyData>>, units: seq<Doc<UnitData>>,
                           faults: set<nat>, start: Mark, here: Mark, marks: seq<Mark>, tenants: seq<TenantIn>,
                           i: nat, errors: nat, propertyId: DocId, buildingIds: map<string, DocId>) {
    i <= |tenants| && |marks| == i + 1 && marks[0] == start && marks[i] == here && t0 <= ts && Precedes(start, here)
    && Windows(marks, start, here) && errors == |FailedAt(faults, marks)|
    && WroteUnfaulted(ts, cs, os, units, faults, marks, tenants, propertyId, buildingIds)
    && (faults == {} ==> AllWritten(t0, ts, c0, cs, tenants[..i]))
  }

  /** Whatever the tenant's processing did, the loop's progress moves on by one tenant. */
  lemma ProgressStep(t0: seq<Doc<TenantData>>, c0: seq<Doc<ContactData>>, ts: seq<Doc<TenantData>>,
                     cs: seq<Doc<ContactData>>, os: seq<Doc<OccupancyData>>, units: seq<Doc<UnitData>>,
                     ts': seq<Doc<TenantData>>, cs': seq<Doc<ContactData>>, os': seq<Doc<OccupancyData>>,
                     units': seq<Doc<UnitData>>, faults: set<nat>, start: Mark, here: Mark, here': Mark,
                     marks: seq<Mark>, marks': seq<Mark>, tenants: seq<TenantIn>, i: nat, errors: nat, errors': nat,
                     failed: bool, id: DocId, propertyId: DocId, buildingIds: map<string, DocId>)
    requires Progress(t0, c0, ts, cs, os, units, faults, start, here, marks, tenants, i, errors, propertyId, buildingIds)
    requires marks' == marks + [here'] && errors' == if failed then errors + 1 else errors
    requires i < |tenants| && Precedes(here, here')
    requires Grew(ts, ts') && Grew(cs, cs') && Grew(os, os') && Grew(units, units')
    requires failed <==> Faulted(faults, here.calls, here'.calls)
    requires here.tenants == |ts| && here.contacts == |cs| && here'.contacts == |cs'|
    requires !failed ==> ts' == ts + [Doc(id, NewTenant(tenants[i]))]
    requires !failed ==> WroteTenant(ts', cs', os', units', here, here', tenants[i], propertyId, buildingIds)
    ensures Progress(t0, c0, ts', cs', os', units', faults, start, here', marks', tenants, i + 1, errors', propertyId, buildingIds)
  {
    WindowsSnoc(marks, start, here, here');
    FailedAtSnoc(faults, marks, here');
    WroteUnfaultedStep(ts, cs, os, units, ts', cs', os', units', faults, marks, here', tenants, propertyId, buildingIds);
    if faults == {} {
      assert ts'[here.tenants].id == id;
      NoFaultProgress(t0, c0, ts, cs, ts', cs', here, here', tenants, i, id);
    }
  }

  /** After the last tenant, the loop's progress is the whole run's. */
  lemma ProgressDone(t0: seq<Doc<TenantData>>, c0: seq<Doc<ContactData>>, ts: seq<Doc<TenantData>>,
                     cs: seq<Doc<ContactData>>, os: seq<Doc<OccupancyData>>, units: seq<Doc<UnitData>>,
                     faults: set<nat>, start: Mark, here: Mark, marks: seq<Mark>, tenants: seq<TenantIn>,
                     errors: nat, propertyId: DocId, buildingIds: map<string, DocId>)
    requires Progress(t0, c0, ts, cs, os, units, faults, start, here, marks, tenants, |tenants|, errors, propertyId, buildingIds)
    ensures TenantsWritten(ts, cs, os, units, faults, start, here, marks, tenants, errors, propertyId, buildingIds)
    ensures Precedes(start, here)
    ensures faults == {} ==> errors == 0 && AllWritten(t0, ts, c0, cs, tenants)
  {
    assert tenants[..|tenants|] == tenants;
    FailedAtNone(marks);
  }

  /** The tenant loop: each tenant counts as a success or, when it threw, as an error, and the loop goes on. */
  method ImportAll(db: Db, propertyId: DocId, buildingIds: map<string, DocId>, tenants: seq<TenantIn>)
    returns (successCount: nat, errorCount: nat, ghost marks: seq<Mark>)
    requires db.Valid()
    modifies db`calls, db`nextId, db`units, db`tenants, db`contacts, db`occupancies
    ensures db.Valid() && old(db.calls) <= db.calls
    ensures successCount + errorCount == |tenants|
    ensures TenantsWritten(db.tenants, db.contacts, db.occupancies, db.units, db.faults, old(db.Here()), db.Here(),
      marks, tenants, errorCount, propertyId, buildingIds)
    ensures db.faults == {} ==> errorCount == 0
    ensures db.faults == {} ==> AllWritten(old(db.tenants), db.tenants, old(db.contacts), db.contacts, tenants)
    ensures |db.tenants| - |old(db.tenants)| >= successCount
    ensures Appended(old(db.tenants), old(db.contacts), old(db.occupancies), old(db.units),
      db.tenants, db.contacts, db.occupancies, db.units, propertyId)
  {
    successCount, errorCount := 0, 0;
    marks := [db.Here()];
    for i := 0 to |tenants|
      invariant db.Valid()
      invariant successCount + errorCount == i
      invariant Progress(old(db.tenants), old(db.contacts), db.tenants, db.contacts, db.occupancies, db.units, db.faults,
        old(db.Here()), db.Here(), marks, tenants, i, errorCount, propertyId, buildingIds)
      invariant |db.tenants| - |old(db.tenants)| >= successCount
      invariant Appended(old(db.tenants), old(db.contacts), old(db.occupancies), old(db.units),
        db.tenants, db.contacts, db.occupancies, db.units, propertyId)
    {
      ghost var t1, c1, o1, u1, here := db.tenants, db.contacts, db.occupancies, db.units, db.Here();
      var r := ProcessTenant(db, propertyId, buildingIds, tenants[i]);
      AppendedStep(old(db.tenants), old(db.contacts), old(db.occupancies), old(db.units), t1, c1, o1, u1,
        db.tenants, db.contacts, db.occupancies, db.units, propertyId);
      ghost var marks0, errors0 := marks, errorCount;
      marks := marks + [db.Here()];
      if r.Success? {
        successCount := successCount + 1;
      } else {
        errorCount := errorCount + 1;
      }
      ProgressStep(old(db.tenants), old(db.contacts), t1, c1, o1, u1, db.tenants, db.contacts, db.occupancies, db.units,
        db.faults, old(db.Here()), here, db.Here(), marks0, marks, tenants, i, errors0, errorCount, r.Failure?,
        if r.Success? then r.value else Auto(0), propertyId, buildingIds);
    }
    ProgressDone(old(db.tenants), old(db.contacts), db.tenants, db.contacts, db.occupancies, db.units, db.faults,
      old(db.Here()), db.Here(), marks, tenants, errorCount, propertyId, buildingIds);
  }

  /**
   * Each of the five numbers has the id of the property's building that
   * matched it in `b0`, or of a new "Building N"; the new ones, and nothing
   * else, were appended to give `b`.
   */
  ghost predicate BuildingsResolved(b0: seq<Doc<BuildingData>>, b: seq<Doc<BuildingData>>, propertyId: DocId,
                                    ids: map<string, DocId>) {
    ids.Keys == (set num | num in BuildingNumbers)
    && (forall num | num in BuildingNumbers && num in Existing(OfProperty(b0, propertyId)) ::
          ids[num] == Existing(OfProperty(b0, propertyId))[num])
    && b == b0 + Created(propertyId, Existing(OfProperty(b0, propertyId)), ids, BuildingNumbers)
  }

  /**
   * Step 2: the property's buildings are read, matched against the five
   * numbers, and the missing ones are created; only buildings are written.
   */
  method ImportBuildings(db: Db, propertyId: DocId) returns (r: Result<map<string, DocId>, StoreError>)
    requires db.Valid()
    modifies db`calls, db`nextId, db`buildings
    ensures db.Valid()
    ensures db.faults == {} ==> r.Success?
    ensures old(db.calls) <= db.calls && (r.Failure? <==> Faulted(db.faults, old(db.calls), db.calls))
    ensures Grew(old(db.buildings), db.buildings)
    ensures r.Success? ==> r.value.Keys == set num | num in BuildingNumbers
    ensures r.Success? ==> forall num | num in BuildingNumbers && num in Existing(OfProperty(old(db.buildings), propertyId)) ::
      r.value[num] == Existing(OfProperty(old(db.buildings), propertyId))[num]
    ensures r.Success? ==> forall num | num in BuildingNumbers && num !in Existing(OfProperty(old(db.buildings), propertyId)) ::
      Doc(r.value[num], BuildingData(propertyId, Some(BuildingName(num)))) in db.buildings
    ensures r.Success? ==>
      db.buildings == old(db.buildings) + Created(propertyId, Existing(OfProperty(old(db.buildings), propertyId)),
        r.value, BuildingNumbers)
  {
    var buildings := db.QueryBuildings(propertyId);
    if buildings.Failure? {
      return Failure(buildings.error);
    }
    var existing := MatchExisting(buildings.value);
    BuildingNumbersDistinct();
    ghost var calls := db.calls;
    r := ResolveBuildings(db, propertyId, existing, BuildingNumbers);
    FaultedJoin(db.faults, old(db.calls), calls, db.calls);
  }

  /** Steps 2 and 3, once the property is known: the buildings, then the tenant loop. */
  method ImportIntoProperty(db: Db, propertyId: DocId, tenants: seq<TenantIn>)
    returns (outcome: Outcome, ghost buildingIds: map<string, DocId>, ghost marks: seq<Mark>)
    requires db.Valid()
    modifies db`calls, db`nextId, db`buildings, db`units, db`tenants, db`contacts, db`occupancies
    ensures db.Valid() && old(db.calls) <= db.calls
    ensures outcome.BuildingsFailed? || outcome.Completed?
    ensures outcome.BuildingsFailed? ==>
      db.units == old(db.units) && db.tenants == old(db.tenants)
      && db.contacts == old(db.contacts) && db.occupancies == old(db.occupancies)
    ensures outcome.BuildingsFailed? ==> Faulted(db.faults, old(db.calls), db.calls)
    ensures outcome.Completed? ==> outcome.successCount + outcome.errorCount == |tenants|
    ensures outcome.Completed? ==> BuildingsResolved(old(db.buildings), db.buildings, propertyId, buildingIds)
    ensures outcome.Completed? ==>
      buildingIds.Keys == (set num | num in BuildingNumbers) && |marks| >= 1 && old(db.calls) <= marks[0].calls
      && !Faulted(db.faults, old(db.calls), marks[0].calls)
      && marks[0].tenants == |old(db.tenants)| && marks[0].contacts == |old(db.contacts)|
      && marks[0].occupancies == |old(db.occupancies)|
      && TenantsWritten(db.tenants, db.contacts, db.occupancies, db.units, db.faults, marks[0], db.Here(),
        marks, tenants, outcome.errorCount, propertyId, buildingIds)
    ensures db.faults == {} ==> outcome == Completed(|tenants|, 0)
    ensures db.faults == {} ==> AllWritten(old(db.tenants), db.tenants, old(db.contacts), db.contacts, tenants)
    ensures Grew(old(db.buildings), db.buildings) && Grew(old(db.units), db.units) && Grew(old(db.tenants), db.tenants)
    ensures Grew(old(db.contacts), db.contacts) && Grew(old(db.occupancies), db.occupancies)
    ensures UniqueUnits(old(db.units)) ==> UniqueUnits(db.units)
    ensures forall d | d in db.contacts[|old(db.contacts)|..] :: d.data.tenantId in IdSet(db.tenants[|old(db.tenants)|..])
    ensures forall d | d in db.occupancies[|old(db.occupancies)|..] ::
      d.data.tenantId in IdSet(db.tenants[|old(db.tenants)|..]) && d.data.propertyId == propertyId
  {
    buildingIds, marks := map[], [];
    var resolved := ImportBuildings(db, propertyId);
    if resolved.Failure? {
      assert db.tenants[|old(db.tenants)|..] == [];
      outcome := BuildingsFailed;
      return;
    }
    buildingIds := resolved.value;
    var successCount, errorCount;
    successCount, errorCount, marks := ImportAll(db, propertyId, resolved.value, tenants);
    outcome := Completed(successCount, errorCount);
  }

  /** importTenantsFromJSON. `file` is the fetched JSON, None when loading it failed. */
  method ImportTenantsFromJSON(db: Db, file: Option<ImportFile>)
    returns (outcome: Outcome, ghost buildingIds: map<string, DocId>, ghost marks: seq<Mark>)
    requires db.Valid()
    modifies db`calls, db`nextId, db`buildings, db`units, db`tenants, db`contacts, db`occupancies
    ensures db.Valid()
    ensures outcome.LoadFailed? <==> file.None?
    ensures outcome.LoadFailed? || outcome.PropertyLookupFailed? || outcome.PropertyMissing? ==>
      (db.buildings == old(db.buildings) && db.units == old(db.units) && db.tenants == old(db.tenants)
       && db.contacts == old(db.contacts) && db.occupancies == old(db.occupancies))
    ensures outcome.BuildingsFailed? ==>
      db.units == old(db.units) && db.tenants == old(db.tenants)
      && db.contacts == old(db.contacts) && db.occupancies == old(db.occupancies)
    ensures outcome.PropertyLookupFailed? || outcome.BuildingsFailed? ==> Faulted(db.faults, old(db.calls), db.calls)
    ensures outcome.Completed? ==>
      Named(db.properties, PropertyName) != []
      && BuildingsResolved(old(db.buildings), db.buildings, Named(db.properties, PropertyName)[0].id, buildingIds)
    ensures outcome.Completed? ==>
      file.Some? && Named(db.properties, PropertyName) != []
      && buildingIds.Keys == (set num | num in BuildingNumbers) && |marks| >= 1 && old(db.calls) <= marks[0].calls
      && marks[0].tenants == |old(db.tenants)| && marks[0].contacts == |old(db.contacts)|
      && marks[0].occupancies == |old(db.occupancies)|
      && TenantsWritten(db.tenants, db.contacts, db.occupancies, db.units, db.faults, marks[0], db.Here(),
        marks, file.value.tenants, outcome.errorCount, Named(db.properties, PropertyName)[0].id, buildingIds)
    ensures db.faults == {} && file.Some? && Named(db.properties, PropertyName) != [] ==>
      AllWritten(old(db.tenants), db.tenants, old(db.contacts), db.contacts, file.value.tenants)
    ensures outcome.PropertyMissing? ==> Named(db.properties, PropertyName) == []
    ensures outcome.PropertyLookupFailed? <==> file.Some? && old(db.calls) in db.faults
    ensures outcome.PropertyMissing? <==>
      file.Some? && old(db.calls) !in db.faults && Named(db.properties, PropertyName) == []
    ensures outcome.BuildingsFailed? || outcome.Completed? ==>
      file.Some? && old(db.calls) !in db.faults && Named(db.properties, PropertyName) != []
    ensures outcome.Completed? ==>
      (file.Some? && Named(db.properties, PropertyName) != []
       && outcome.successCount + outcome.errorCount == |file.value.tenants|)
    ensures db.faults == {} && file.Some? ==>
      outcome == if Named(db.properties, PropertyName) == [] then PropertyMissing else Completed(|file.value.tenants|, 0)
    ensures Grew(old(db.buildings), db.buildings) && Grew(old(db.units), db.units) && Grew(old(db.tenants), db.tenants)
    ensures Grew(old(db.contacts), db.contacts) && Grew(old(db.occupancies), db.occupancies)
    ensures UniqueUnits(old(db.units)) ==> UniqueUnits(db.units)
    ensures forall d | d in db.contacts[|old(db.contacts)|..] :: d.data.tenantId in IdSet(db.tenants[|old(db.tenants)|..])
    ensures forall d | d in db.occupancies[|old(db.occupancies)|..] ::
      d.data.tenantId in IdSet(db.tenants[|old(db.tenants)|..])
      && Named(db.properties, PropertyName) != [] && d.data.propertyId == Named(db.properties, PropertyName)[0].id
  {
    buildingIds, marks := map[], [];
    if file.None? {
      outcome := LoadFailed;
      return;
    }
    var properties := db.QueryProperties(PropertyName);
    if properties.Failure? {
      outcome := PropertyLookupFailed;
      return;
    }
    if properties.value == [] {
      outcome := PropertyMissing;
      return;
    }
    ghost var calls := db.calls;
    outcome, buildingIds, marks := ImportIntoProperty(db, properties.value[0].id, file.value.tenants);
    FaultedJoin(db.faults, old(db.calls), calls, db.calls);
  }
}
