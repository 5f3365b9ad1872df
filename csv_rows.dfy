/**
 * The row loop of parse_csv_to_json (parse_tenant_csv.py): the spreadsheet
 * arrives as a sequence of rows of cells and leaves as a sequence of tenant
 * records, each with its ordered contacts and one occupancy per suite.
 */
module CsvRows {
  import opened Wrappers
  import opened Text
  import opened CsvClean

  type Row = seq<string>

  const PropertyName := "Sanctuary Office Park"
  const HeaderMarker := "Building #"
  const SummaryKeywords: seq<string> :=
    ["Summary", "Grand Summary", "Rented Spaces", "Vacant", "Rent-able",
     "Rented", "Occupancy", "VACANT", "Janitorial", "Annual"]
  const LeasingAgent := "Leasing Agent"
  /** The number of title rows above the data. */
  const HeaderRows := 5

  datatype Contact = Contact(
    contactName: string,
    contactEmail: Option<string>,
    contactPhone: Option<string>,
    contactTitle: Option<string>,
    classifications: seq<string>)

  /**
   * An occupancy record. `moveInDate` is the date text that parse_date is
   * handed once its placeholder values are ruled out.
   */
  datatype Occupancy = Occupancy(
    propertyName: string,
    buildingNumber: Option<string>,
    unitNumber: Option<string>,
    moveInDate: Option<string>,
    status: string)

  datatype Tenant = Tenant(
    tenantName: string,
    tenantType: string,
    status: string,
    contacts: seq<Contact>,
    occupancies: seq<Occupancy>)

  // ---------------------------------------------------------------------------
  // Cells

  /** `row[k].strip() if len(row) > k and row[k] != '-' else None`: the raw cell is compared before stripping. */
  function TextCell(row: Row, k: nat): Option<string> {
    if k < |row| && row[k] != "-" then Some(PyStrip(row[k])) else None
  }

  function PhoneCell(row: Row, k: nat): Option<string> {
    if k < |row| then CleanPhone(row[k]) else None
  }

  function EmailCell(row: Row, k: nat): Option<string> {
    if k < |row| then CleanEmail(row[k]) else None
  }

  /** Python truthiness of an optional string: present and not empty. */
  predicate Present(cell: Option<string>) {
    cell.Some? && cell.value != ""
  }

  /** The placeholder test at the head of parse_date; the date formats themselves are not modelled. */
  function DateCandidate(cell: Option<string>): (r: Option<string>)
    ensures r.Some? ==> r.value != "" && PyStrip(r.value) == r.value
  {
    if !Present(cell) then None
    else
      var d := PyStrip(cell.value);
      StripIdempotent(cell.value);
      if d in {"-", "TBD", "N/A", "MONTH TO MONTH", ""} then None else Some(d)
  }

  // ---------------------------------------------------------------------------
  // Row classification

  /** The maximal run of digits `s` starts with, as a length. */
  function DigitRun(s: string): (n: nat)
    ensures n <= |s| && AllDigits(s[..n])
    ensures n < |s| ==> !IsDigit(s[n])
  {
    if s != [] && IsDigit(s[0]) then
      var n := 1 + DigitRun(s[1..]);
      assert s[..n] == [s[0]] + s[1..][..n - 1];
      n
    else 0
  }

  /** re.search(r'Building #(\d+)', s), looking from position `i` on: the captured digits of the first match. */
  function BuildingMatchFrom(s: string, i: nat): (r: Option<string>)
    requires i <= |s|
    ensures r.Some? ==> r.value != [] && AllDigits(r.value)
    ensures r.Some? ==> Contains(s, HeaderMarker)
    decreases |s| - i
  {
    var j := i + |HeaderMarker|;
    if j < |s| && s[i..j] == HeaderMarker && IsDigit(s[j]) then
      var n := DigitRun(s[j..]);
      assert OccursAt(s, HeaderMarker, i);
      assert s[j..][..n] == s[j..j + n];
      Some(s[j..j + n])
    else if i < |s| then BuildingMatchFrom(s, i + 1)
    else None
  }

  function BuildingMatch(s: string): Option<string> {
    BuildingMatchFrom(s, 0)
  }

  /** The digit run at the start of `d + rest` is exactly `d` when `rest` does not start with a digit. */
  lemma {:induction false} DigitRunOf(d: string, rest: string)
    requires AllDigits(d)
    requires rest == [] || !IsDigit(rest[0])
    ensures DigitRun(d + rest) == |d|
  {
    if d == [] {
      assert d + rest == rest;
    } else {
      assert (d + rest)[1..] == d[1..] + rest;
      DigitRunOf(d[1..], rest);
    }
  }

  /** A header spelled "Building #<digits>", followed by anything that is not a digit, names those digits. */
  lemma BuildingOfHeader(d: string, rest: string)
    requires d != [] && AllDigits(d)
    requires rest == [] || !IsDigit(rest[0])
    ensures BuildingMatch(HeaderMarker + d + rest) == Some(d)
  {
    var s := HeaderMarker + d + rest;
    var j := |HeaderMarker|;
    assert s[0..j] == HeaderMarker;
    assert s[j] == d[0];
    assert s[j..] == d + rest;
    DigitRunOf(d, rest);
    assert s[j..j + |d|] == d;
  }

  predicate BlankFirst(row: Row) {
    row == [] || row[0] == "" || PyStrip(row[0]) == ""
  }

  predicate MentionsSummary(s: string) {
    exists k | 0 <= k < |SummaryKeywords| :: Contains(s, SummaryKeywords[k])
  }

  /** What the loop does with a row, in the order of its tests. */
  datatype RowKind = Blank | Header(number: Option<string>) | Summary | Unnamed | Data

  function Kind(row: Row): (k: RowKind)
    ensures k == Data ==> row != [] && PyStrip(row[0]) != ""
  {
    if BlankFirst(row) then Blank
    else if Contains(row[0], HeaderMarker) then Header(BuildingMatch(row[0]))
    else if MentionsSummary(row[0]) then Summary
    else if PyStrip(row[0]) == "" || PyStrip(row[0]) == "-" then Unnamed
    else Data
  }

  // ---------------------------------------------------------------------------
  // Contacts

  /** The contact columns of a row: two contacts, two leasing agents, three further contacts. */
  datatype Role = FirstContact | SecondContact | Agent | ExtraContact
  datatype Slot = Slot(column: nat, role: Role)

  const ContactSlots: seq<Slot> :=
    [Slot(18, FirstContact), Slot(21, SecondContact), Slot(31, Agent), Slot(34, Agent),
     Slot(37, ExtraContact), Slot(40, ExtraContact), Slot(43, ExtraContact)]

  function RoleClassifications(name: string, role: Role): seq<string> {
    match role
    case FirstContact => DetermineContactClassifications(name, 0, false)
    case SecondContact => DetermineContactClassifications(name, 1, false)
    case Agent => ["Leasing"]
    case ExtraContact => ["Secondary"]
  }

  /** The contact a slot contributes: its name cell, the phone cell after it and the e-mail cell after that. */
  function SlotContact(row: Row, slot: Slot): Option<Contact> {
    var name := TextCell(row, slot.column);
    if !Present(name) then None
    else Some(Contact(
      name.value,
      EmailCell(row, slot.column + 2),
      PhoneCell(row, slot.column + 1),
      if slot.role == Agent then Some(LeasingAgent) else None,
      RoleClassifications(name.value, slot.role)))
  }

  /** What each slot contributes, slot by slot. */
  function SlotResults(row: Row, slots: seq<Slot>): (r: seq<Option<Contact>>)
    ensures |r| == |slots| && forall k :: 0 <= k < |r| ==> r[k] == SlotContact(row, slots[k])
  {
    seq(|slots|, k requires 0 <= k < |slots| => SlotContact(row, slots[k]))
  }

  function Listed(c: Option<Contact>): seq<Contact> {
    if c.Some? then [c.value] else []
  }

  /** The contacts among `opts`, in order. */
  function Gather(opts: seq<Option<Contact>>): seq<Contact> {
    if opts == [] then []
    else Gather(opts[..|opts| - 1]) + Listed(opts[|opts| - 1])
  }

  /** How many of `opts` hold a contact. */
  function CountSome(opts: seq<Option<Contact>>): nat {
    if opts == [] then 0
    else CountSome(opts[..|opts| - 1]) + (if opts[|opts| - 1].Some? then 1 else 0)
  }

  /** The contacts of a row: one per slot whose name cell is present, in slot order. */
  function RowContacts(row: Row): seq<Contact> {
    Gather(SlotResults(row, ContactSlots))
  }

  lemma GatherStep(opts: seq<Option<Contact>>, i: nat)
    requires i < |opts|
    ensures Gather(opts[..i + 1]) == Gather(opts[..i]) + Listed(opts[i])
  {
    assert opts[..i + 1][..i] == opts[..i];
  }

  /** Builds the contact list as the source does: four named slots, then a loop over contacts 3 to 5. */
  method CollectContacts(row: Row) returns (contacts: seq<Contact>)
    ensures contacts == RowContacts(row)
  {
    ghost var opts := SlotResults(row, ContactSlots);
    contacts := [];
    var i := 0;
    while i < 4
      invariant 0 <= i <= 4
      invariant contacts == Gather(opts[..i])
    {
      GatherStep(opts, i);
      var c := SlotContact(row, ContactSlots[i]);
      if c.Some? {
        contacts := contacts + [c.value];
      }
      i := i + 1;
    }
    contacts := AppendExtraContacts(row, contacts);
  }

  /** The loop over contacts 3, 4 and 5, each classified Secondary. */
  method AppendExtraContacts(row: Row, before: seq<Contact>) returns (contacts: seq<Contact>)
    requires before == Gather(SlotResults(row, ContactSlots)[..4])
    ensures contacts == RowContacts(row)
  {
    ghost var opts := SlotResults(row, ContactSlots);
    contacts := before;
    var extras := ContactSlots[4..];
    for j := 0 to |extras|
      invariant contacts == Gather(opts[..4 + j])
    {
      GatherStep(opts, 4 + j);
      var c := SlotContact(row, extras[j]);
      if c.Some? {
        contacts := contacts + [c.value];
      }
    }
    assert opts[..7] == opts;
  }

  /** One contact per slot result that holds one. */
  lemma {:induction false} GatherCount(opts: seq<Option<Contact>>)
    ensures |Gather(opts)| == CountSome(opts) <= |opts|
  {
    if opts != [] {
      GatherCount(opts[..|opts| - 1]);
    }
  }

  /** A slot's contact sits right after the contacts of the slots before it. */
  lemma {:induction false} GatherAt(opts: seq<Option<Contact>>, k: nat)
    requires k < |opts| && opts[k].Some?
    ensures var i := CountSome(opts[..k]);
      i < |Gather(opts)| && Gather(opts)[i] == opts[k].value
  {
    var init := opts[..|opts| - 1];
    GatherCount(init);
    if k == |opts| - 1 {
      assert opts[..k] == init;
    } else {
      assert init[k] == opts[k] && init[..k] == opts[..k];
      GatherAt(init, k);
    }
  }

  /** Every gathered contact comes from some slot. */
  lemma {:induction false} GatherFrom(opts: seq<Option<Contact>>, c: Contact) returns (k: nat)
    requires c in Gather(opts)
    ensures k < |opts| && opts[k] == Some(c)
  {
    var init := opts[..|opts| - 1];
    if c in Gather(init) {
      k := GatherFrom(init, c);
    } else {
      k := |opts| - 1;
    }
  }

  /** A well-formed contact: named, with a role, and titled a leasing agent exactly when its only role is Leasing. */
  predicate GoodContact(c: Contact) {
    && c.contactName != ""
    && PyStrip(c.contactName) == c.contactName
    && 1 <= |c.classifications| <= 2
    && (c.contactTitle.Some? ==> c.contactTitle == Some(LeasingAgent))
    && (c.contactTitle == Some(LeasingAgent) <==> c.classifications == ["Leasing"])
  }

  lemma SlotContactGood(row: Row, slot: Slot)
    requires SlotContact(row, slot).Some?
    ensures GoodContact(SlotContact(row, slot).value)
  {
    StripIdempotent(row[slot.column]);
    var name := TextCell(row, slot.column).value;
    if slot.role == FirstContact || slot.role == SecondContact {
      var r := RoleClassifications(name, slot.role);
      assert r[0] != "Leasing";
    }
  }

  /**
   * Every contact of a row is well formed and comes from a slot whose name
   * cell is present; leasing agents come only from the agent columns 31 and 34.
   */
  lemma RowContactsGood(row: Row)
    ensures |RowContacts(row)| <= |ContactSlots|
    ensures forall c | c in RowContacts(row) :: GoodContact(c)
    ensures forall c | c in RowContacts(row) && c.contactTitle.Some? ::
      TextCell(row, 31) == Some(c.contactName) || TextCell(row, 34) == Some(c.contactName)
  {
    var opts := SlotResults(row, ContactSlots);
    GatherCount(opts);
    forall c | c in RowContacts(row)
      ensures GoodContact(c)
      ensures c.contactTitle.Some? ==> TextCell(row, 31) == Some(c.contactName) || TextCell(row, 34) == Some(c.contactName)
    {
      var k := GatherFrom(opts, c);
      var slot := ContactSlots[k];
      SlotContactGood(row, slot);
      if c.contactTitle.Some? {
        assert slot.role == Agent;
        AgentSlot(k);
        assert TextCell(row, slot.column) == Some(c.contactName);
      }
    }
  }

  lemma AgentSlot(k: nat)
    requires k < |ContactSlots| && ContactSlots[k].role == Agent
    ensures ContactSlots[k].column == 31 || ContactSlots[k].column == 34
  {
  }

  /**
   * The second contact is classified as the second one (Secondary, plus
   * Billing when named so) even when the first contact is missing; it then
   * stands first in the list.
   */
  lemma SecondContactPlacement(row: Row)
    requires Present(TextCell(row, 21))
    ensures var cs := RowContacts(row);
      var i := if Present(TextCell(row, 18)) then 1 else 0;
      && i < |cs|
      && cs[i].contactName == TextCell(row, 21).value
      && cs[i].classifications == DetermineContactClassifications(TextCell(row, 21).value, 1, false)
      && cs[i].classifications[0] == "Secondary"
  {
    var opts := SlotResults(row, ContactSlots);
    assert ContactSlots[1] == Slot(21, SecondContact);
    var first := opts[..1];
    assert CountSome(first) == if Present(TextCell(row, 18)) then 1 else 0 by {
      assert first[..0] == [];
      assert first[0] == SlotContact(row, Slot(18, FirstContact));
    }
    GatherAt(opts, 1);
  }

  // ---------------------------------------------------------------------------
  // Suites and occupancies

  /** `parse_suite_numbers(suite_number) if suite_number else []`; the cell is stripped, so the parser cannot fail. */
  function RowSuites(row: Row): seq<string> {
    var cell := TextCell(row, 4);
    if !Present(cell) then []
    else
      StripIdempotent(row[4]);
      SuiteNumbersOfStripped(cell.value);
      SuiteNumbers(cell.value).value
  }

  /** The occupancy for one suite, or for the whole property when `unit` is None. */
  function OccupancyFor(unit: Option<string>, building: Option<string>, moveIn: Option<string>, status: string): Occupancy {
    Occupancy(PropertyName, building, unit, moveIn, status)
  }

  /** One occupancy per suite, appended in suite order. */
  function PerSuite(suites: seq<string>, building: Option<string>, moveIn: Option<string>, status: string): seq<Occupancy> {
    if suites == [] then []
    else PerSuite(suites[..|suites| - 1], building, moveIn, status) + [OccupancyFor(Some(suites[|suites| - 1]), building, moveIn, status)]
  }

  function Occupancies(suites: seq<string>, building: Option<string>, moveIn: Option<string>, status: string): seq<Occupancy> {
    if suites == [] then [OccupancyFor(None, building, moveIn, status)]
    else PerSuite(suites, building, moveIn, status)
  }

  lemma {:induction false} PerSuiteContents(suites: seq<string>, building: Option<string>, moveIn: Option<string>, status: string)
    ensures var r := PerSuite(suites, building, moveIn, status);
      |r| == |suites| && forall k :: 0 <= k < |r| ==> r[k] == OccupancyFor(Some(suites[k]), building, moveIn, status)
  {
    if suites != [] {
      PerSuiteContents(suites[..|suites| - 1], building, moveIn, status);
    }
  }

  /**
   * Without suites there is exactly one occupancy, with no unit; otherwise
   * one per suite, in order. All carry the property, the current building,
   * the move-in date and the tenant's status.
   */
  lemma OccupanciesContents(suites: seq<string>, building: Option<string>, moveIn: Option<string>, status: string)
    ensures var r := Occupancies(suites, building, moveIn, status);
      && |r| == (if suites == [] then 1 else |suites|)
      && (suites == [] ==> r[0].unitNumber.None?)
      && (forall k :: 0 <= k < |suites| ==> r[k].unitNumber == Some(suites[k]))
      && (forall o | o in r :: o.propertyName == PropertyName && o.buildingNumber == building
            && o.moveInDate == moveIn && o.status == status)
  {
    PerSuiteContents(suites, building, moveIn, status);
  }

  /** Builds the occupancies as the source does, appending one per suite. */
  method BuildOccupancies(suites: seq<string>, building: Option<string>, moveIn: Option<string>, status: string)
    returns (occupancies: seq<Occupancy>)
    ensures occupancies == Occupancies(suites, building, moveIn, status)
  {
    occupancies := [];
    if suites == [] {
      occupancies := occupancies + [OccupancyFor(None, building, moveIn, status)];
    } else {
      for i := 0 to |suites|
        invariant occupancies == PerSuite(suites[..i], building, moveIn, status)
      {
        assert suites[..i + 1][..i] == suites[..i];
        occupancies := occupancies + [OccupancyFor(Some(suites[i]), building, moveIn, status)];
      }
      assert suites[..|suites|] == suites;
    }
  }

  // ---------------------------------------------------------------------------
  // Tenants

  /** `'Active' if status and 'Occupied' in status else 'Past'`. */
  function TenantStatus(cell: Option<string>): string {
    if Present(cell) && Contains(cell.value, "Occupied") then "Active" else "Past"
  }

  /** The tenant a data row becomes, under the building of the last header seen. */
  function RowTenant(row: Row, building: Option<string>): Tenant
    requires row != []
  {
    var status := TenantStatus(TextCell(row, 14));
    var moveIn := DateCandidate(TextCell(row, 13));
    Tenant(PyStrip(row[0]), "Commercial", status, RowContacts(row),
           Occupancies(RowSuites(row), building, moveIn, status))
  }

  /** A tenant is Active exactly when its raw status cell mentions "Occupied". */
  lemma StatusActiveIff(row: Row, building: Option<string>)
    requires row != []
    ensures RowTenant(row, building).status == "Active" <==> 14 < |row| && Contains(row[14], "Occupied")
  {
    var t := "Occupied";
    assert IsWord(t);
    if 14 < |row| && Contains(row[14], t) {
      ContainsWordInStrip(row[14], t);
    }
    if RowTenant(row, building).status == "Active" {
      ContainsInStrip(row[14], t);
    }
  }

  /** The body of the loop for a data row. */
  method BuildTenant(row: Row, building: Option<string>) returns (tenant: Tenant)
    requires row != []
    ensures tenant == RowTenant(row, building)
  {
    var status := TenantStatus(TextCell(row, 14));
    var suites := RowSuites(row);
    var contacts := CollectContacts(row);
    var moveIn := DateCandidate(TextCell(row, 13));
    var occupancies := BuildOccupancies(suites, building, moveIn, status);
    tenant := Tenant(PyStrip(row[0]), "Commercial", status, contacts, occupancies);
  }

  // ---------------------------------------------------------------------------
  // The row loop

  datatype ParseState = ParseState(building: Option<string>, tenants: seq<Tenant>)

  /** What one row does to the loop's state. */
  function Step(st: ParseState, row: Row): ParseState {
    match Kind(row)
    case Header(n) => if n.Some? then st.(building := n) else st
    case Data => st.(tenants := st.tenants + [RowTenant(row, st.building)])
    case _ => st
  }

  function Fold(rows: seq<Row>): ParseState {
    if rows == [] then ParseState(None, [])
    else Step(Fold(rows[..|rows| - 1]), rows[|rows| - 1])
  }

  /** The rows after the title rows (`rows[5:]`). */
  function DataRows(rows: seq<Row>): seq<Row> {
    if |rows| > HeaderRows then rows[HeaderRows..] else []
  }

  function ParseRows(rows: seq<Row>): seq<Tenant> {
    Fold(DataRows(rows)).tenants
  }

  /** The body of the row loop: its tests in order, each `continue` an early return. */
  method ProcessRow(row: Row, building: Option<string>, tenants: seq<Tenant>)
    returns (building': Option<string>, tenants': seq<Tenant>)
    ensures ParseState(building', tenants') == Step(ParseState(building, tenants), row)
  {
    building', tenants' := building, tenants;
    if BlankFirst(row) {
      return;
    }
    if Contains(row[0], HeaderMarker) {
      var m := BuildingMatch(row[0]);
      if m.Some? {
        building' := m;
      }
      return;
    }
    if MentionsSummary(row[0]) {
      return;
    }
    var companyName := PyStrip(row[0]);
    if companyName == "" || companyName == "-" {
      return;
    }
    var tenant := BuildTenant(row, building);
    tenants' := tenants + [tenant];
  }

  /** The row loop of parse_csv_to_json. */
  method ParseCsvToJson(rows: seq<Row>) returns (tenants: seq<Tenant>)
    ensures tenants == ParseRows(rows)
  {
    var data := DataRows(rows);
    var currentBuilding: Option<string> := None;
    tenants := [];
    for i := 0 to |data|
      invariant Fold(data[..i]) == ParseState(currentBuilding, tenants)
    {
      assert data[..i + 1][..i] == data[..i];
      currentBuilding, tenants := ProcessRow(data[i], currentBuilding, tenants);
    }
    assert data[..|data|] == data;
  }

  // ---------------------------------------------------------------------------
  // Properties of the parsed output

  /** A tenant name that no skipped row could have produced. */
  predicate GoodTenantName(name: string) {
    && name != "" && name != "-"
    && PyStrip(name) == name
    && !Contains(name, HeaderMarker)
    && !MentionsSummary(name)
  }

  predicate GoodTenant(t: Tenant) {
    && GoodTenantName(t.tenantName)
    && t.tenantType == "Commercial"
    && (t.status == "Active" || t.status == "Past")
    && |t.occupancies| >= 1
    && (forall o | o in t.occupancies :: o.status == t.status && o.propertyName == PropertyName)
    && (forall c | c in t.contacts :: GoodContact(c))
    && |t.contacts| <= |ContactSlots|
  }

  lemma RowTenantGood(row: Row, building: Option<string>)
    requires Kind(row) == Data
    ensures GoodTenant(RowTenant(row, building))
  {
    var name := PyStrip(row[0]);
    StripIdempotent(row[0]);
    if Contains(name, HeaderMarker) {
      ContainsInStrip(row[0], HeaderMarker);
    }
    if MentionsSummary(name) {
      var k :| 0 <= k < |SummaryKeywords| && Contains(name, SummaryKeywords[k]);
      ContainsInStrip(row[0], SummaryKeywords[k]);
    }
    var t := RowTenant(row, building);
    OccupanciesContents(RowSuites(row), building, DateCandidate(TextCell(row, 13)), t.status);
    RowContactsGood(row);
  }

  /** How many of the rows the loop turns into tenants. */
  function CountData(rows: seq<Row>): (n: nat)
    ensures n <= |rows|
  {
    if rows == [] then 0
    else CountData(rows[..|rows| - 1]) + (if Kind(rows[|rows| - 1]) == Data then 1 else 0)
  }

  /**
   * Every emitted tenant is well formed, and there is exactly one per data
   * row: blank rows, building headers, summary rows and rows named '-'
   * produce none.
   */
  lemma {:induction false} FoldTenants(rows: seq<Row>)
    ensures |Fold(rows).tenants| == CountData(rows)
    ensures forall t | t in Fold(rows).tenants :: GoodTenant(t)
  {
    if rows != [] {
      var init := rows[..|rows| - 1];
      var row := rows[|rows| - 1];
      FoldTenants(init);
      var st := Fold(init);
      StepTenants(st, row);
      if Kind(row) == Data {
        RowTenantGood(row, st.building);
      }
    }
  }

  /** A data row appends its tenant; every other row leaves the tenants alone. */
  lemma StepTenants(st: ParseState, row: Row)
    ensures Step(st, row).tenants == st.tenants + (if Kind(row) == Data then [RowTenant(row, st.building)] else [])
  {
  }

  /** The first five rows never matter, and at most one tenant comes from each later row. */
  lemma ParseRowsTenants(rows: seq<Row>)
    ensures |ParseRows(rows)| == CountData(DataRows(rows))
    ensures |ParseRows(rows)| <= if |rows| > HeaderRows then |rows| - HeaderRows else 0
    ensures forall t | t in ParseRows(rows) :: GoodTenant(t)
  {
    FoldTenants(DataRows(rows));
  }

  /**
   * The building a tenant's occupancies carry is the number of the most
   * recent "Building #N" header: after such a header, the loop's building is N.
   */
  lemma HeaderSetsBuilding(st: ParseState, d: string, rest: string, row: Row)
    requires d != [] && AllDigits(d)
    requires rest == [] || !IsDigit(rest[0])
    requires row != [] && row[0] == HeaderMarker + d + rest
    ensures Step(st, row) == st.(building := Some(d))
  {
    BuildingOfHeader(d, rest);
    assert row[0][0] == 'B';
    assert !BlankFirst(row) by {
      StripUnchangedFirst(row[0]);
    }
    assert OccursAt(row[0], HeaderMarker, 0);
  }

  /** A string that starts with a non-space character does not strip to nothing. */
  lemma StripUnchangedFirst(s: string)
    requires s != [] && !IsPySpace(s[0])
    ensures PyStrip(s) != ""
  {
    StripKeeps(s, s[0]);
  }

  /** Each tenant's occupancies carry the building current when its row was read. */
  lemma DataRowOccupancies(st: ParseState, row: Row)
    requires Kind(row) == Data
    ensures var t := Step(st, row).tenants[|st.tenants|];
      && Step(st, row).tenants[..|st.tenants|] == st.tenants
      && forall o | o in t.occupancies :: o.buildingNumber == st.building
  {
    var t := RowTenant(row, st.building);
    OccupanciesContents(RowSuites(row), st.building, DateCandidate(TextCell(row, 13)), t.status);
  }
}
