/**
 * The tenants import file as the two import scripts read it: a list of
 * tenants, each with its contacts and occupancies. Every field is optional,
 * as in JSON: a missing, null or empty value is None or an empty string,
 * and a missing list is the empty list.
 */
module TenantJson {
  import opened Wrappers

  datatype ContactIn = ContactIn(
    contactName: Option<string>,
    contactEmail: Option<string>,
    contactPhone: Option<string>,
    contactTitle: Option<string>,
    classifications: Option<seq<string>>,
    notes: Option<string>)

  datatype OccupancyIn = OccupancyIn(
    buildingNumber: Option<string>,
    unitNumber: Option<string>,
    moveInDate: Option<string>,
    moveOutDate: Option<string>,
    status: Option<string>,
    notes: Option<string>)

  datatype TenantIn = TenantIn(
    tenantName: Option<string>,
    tenantType: Option<string>,
    status: Option<string>,
    mailingAddress: Option<string>,
    notes: Option<string>,
    taxId: Option<string>,
    businessType: Option<string>,
    numberOfEmployees: Option<int>,
    website: Option<string>,
    contacts: seq<ContactIn>,
    occupancies: seq<OccupancyIn>)

  datatype ImportFile = ImportFile(tenants: seq<TenantIn>)

  /** JavaScript truthiness of an optional string: present and not empty. */
  predicate Truthy(s: Option<string>) {
    s.Some? && s.value != ""
  }

  /** `s || d` for an optional string and a string default. */
  function OrDefault(s: Option<string>, d: string): (r: string)
    ensures Truthy(s) ==> r == s.value
    ensures !Truthy(s) ==> r == d
  {
    if Truthy(s) then s.value else d
  }

  /** `s || null`: falsy values become null. */
  function OrNull(s: Option<string>): (r: Option<string>)
    ensures r.Some? <==> Truthy(s)
    ensures r.Some? ==> r == s
  {
    if Truthy(s) then s else None
  }

  /** `n || null` for a number: zero is falsy. */
  function NumberOrNull(n: Option<int>): (r: Option<int>)
    ensures r.Some? <==> n.Some? && n.value != 0
    ensures r.Some? ==> r == n
  {
    if n.Some? && n.value != 0 then n else None
  }
}
