# Tenant data pipeline and ticket board, modelled in Dafny

This project models the core of a small property-management web application:

- **The CSV normaliser** (`parse_tenant_csv.py`) reads a rent-roll spreadsheet and
  turns its rows into tenant records. It cleans phone numbers, e-mail addresses,
  numbers and suite lists, classifies contacts, skips title, header and summary
  rows, tracks the current building from `Building #N` header rows, and emits one
  occupancy per suite.
- **The ticket board** (`app.js`, `renderTickets`) sends a delete request for every
  ticket deleted more than 30 days ago. It then filters the rest by the selected
  property, partitions them into active, completed and deleted tickets, sorts each
  list newest first, and renders a card per ticket or an empty-state placeholder.
- **The automatic import** (`importTenantsFromJSON` in `import_tenants_browser.js`)
  finds the property "Sanctuary Office Park" and finds or creates buildings 1 to 5.
  It then writes every tenant with its contacts and occupancies, applying defaults
  and skip rules, finding or creating units, and counting successes and errors.
- **The configured import** (`importTenantsBrowser` in `import_tenants_from_json.js`)
  stops on a placeholder configuration. It either reports a dry run or writes every
  tenant, contact and occupancy verbatim under the configured ids, logging and
  skipping a tenant that fails.

The database is an in-memory class `Store.Db` holding one sequence of documents per
collection. Every query and every insert is one numbered call, and a fixed set of
call numbers throws. This stands in for any failure of the database client. Writes
made before a failure stay, as they do in the application, which uses no
transactions.

Files:

- `wrappers.dfy`: Option and Result.
- `text.dfy`: Python and JavaScript string primitives (`strip`, `split`, `lower`,
  `in`, digit filtering, decimal reading).
- `csv_clean.dfy`: the cleaning functions and the contact classifier.
- `csv_rows.dfy`: the row loop.
- `tickets.dfy`: `renderTickets`.
- `store.dfy`: the database.
- `tenant_json.dfy`: the import file's records and JavaScript `||` defaulting.
- `units.dfy`: unit lookup-or-create, shared by both import scripts.
- `auto_import.dfy`: `importTenantsFromJSON`.
- `config_import.dfy`: `importTenantsBrowser`.

Where the code and its design notes disagree, the model follows the code:

- The configured import writes every contact, including one named "TBD" or with
  no name. It also writes occupancies under any non-empty configured building id,
  including the placeholder ids of its default configuration. No check ensures
  that such a building exists.
- The second CSV contact is classified as contact index 1, so it is "Secondary"
  even when there is no first contact.
- The CSV `-` test is made on the raw cell, before stripping. A cell " - " becomes
  the text "-", not "no value".

## Model

| member | source | states |
|---|---|---|
| Text.PyStrip | parse_tenant_csv.py:15 | `str.strip()`: the result neither starts nor ends with whitespace |
| Text.StripIdempotent | parse_tenant_csv.py:160-216 | stripping an already stripped cell changes nothing |
| Text.JoinSplit | parse_tenant_csv.py:67 | `split(sep)` loses nothing: joining the pieces with `sep` gives the input back |
| Text.WordsAreWords | parse_tenant_csv.py:78-79 | every piece of `split()` is a non-empty run of non-whitespace characters |
| Text.ToLowerIdempotent | parse_tenant_csv.py:29 | lower-casing twice is lower-casing once |
| Text.DigitsOfConcat | parse_tenant_csv.py:18 | removing the non-digits of a concatenation removes them from each part |
| Text.DecimalValueOfDecimal | parse_tenant_csv.py:99-101 | the model's base-10 digit reader (the digit-reading part of `int()`, without its digit limit) gives back n from the decimal digits of n |
| CsvClean.CleanPhone | parse_tenant_csv.py:13-23 | None exactly for an empty cell or one that strips to `-`, `TBD` or nothing; otherwise 10 digits give `(AAA) BBB-CCCC`, 11 digits starting with 1 give `+1 (AAA) BBB-CCCC`, and any other count gives the bare digits, possibly none |
| CsvClean.CleanPhoneKeepsDigits | parse_tenant_csv.py:18-23 | formatting keeps exactly the digits of the input, in order |
| CsvClean.UsFormatDigits | parse_tenant_csv.py:19-20 | the ten-digit layout holds exactly the ten digits |
| CsvClean.IntlFormatDigits | parse_tenant_csv.py:21-22 | the eleven-digit layout holds exactly the eleven digits |
| CsvClean.CleanEmail | parse_tenant_csv.py:25-32 | a value exactly when the cell is not a placeholder and contains `@`; the value is the stripped, lower-cased cell and contains `@` |
| CsvClean.CleanEmailIdempotent | parse_tenant_csv.py:25-32 | cleaning a cleaned address gives it back unchanged |
| CsvClean.CleanNumber | parse_tenant_csv.py:94-103 | a value exactly when the cell is not a placeholder and has at least one and at most 4300 digits (CPython's default limit for `int()` on a string); the value is a natural number below 10 to the number of digits |
| CsvClean.CleanNumberOfDecimal | parse_tenant_csv.py:94-103 | a cell holding the decimal form of n reads as n when it has at most 4300 digits, and as no value when it has more |
| CsvClean.CleanNumberIgnoresSeparators | parse_tenant_csv.py:98-101 | a thousands comma is ignored: "n,mmm" reads as 1000·n + m when its digits number at most 4300, and as no value otherwise |
| CsvClean.CollectLineSuites | parse_tenant_csv.py:65-71 | the loop over the lines collects, in order, each line's stripped text before its first `-`, dropping empty ones |
| CsvClean.ParseSuiteNumbers | parse_tenant_csv.py:59-81 | the cell's suites as the case analysis SuiteNumbers gives them (empty or `-`: none; multi-line: the line suites; `+`: the stripped pieces; a space whose second word has no digit: the words; otherwise one stripped suite; a space with fewer than two words: IndexError), the multi-line case computed by the loop over the lines |
| CsvClean.SuiteNumbersOfStripped | parse_tenant_csv.py:78 | on a stripped cell, the one the row loop passes, the IndexError case cannot happen |
| CsvClean.SuiteNumbersStripped | parse_tenant_csv.py:59-81 | every suite is stripped, and none is empty except from the `+` form |
| CsvClean.LineSuitesStripped | parse_tenant_csv.py:65-71 | every suite from the multi-line form is stripped and contains no `-` |
| CsvClean.DetermineContactClassifications | parse_tenant_csv.py:105-124 | first exactly one of Leasing (agent), Primary (index 0) or Secondary; then Billing exactly when the lower-cased name contains cfo, accounting, finance or billing; so the length is 1 or 2 |
| CsvRows.DateCandidate | parse_tenant_csv.py:34-39 | a date is only attempted on non-placeholder text, which is then stripped and non-empty |
| CsvRows.BuildingOfHeader | parse_tenant_csv.py:144-150 | a header `Building #` followed by digits yields exactly that digit run |
| CsvRows.Kind | parse_tenant_csv.py:140-158 | a row is data only if its first cell does not strip to nothing |
| CsvRows.CollectContacts | parse_tenant_csv.py:247-309 | the contacts of a row, one per present name cell in the order contact 1, contact 2, agent 1, agent 2, contacts 3 to 5 |
| CsvRows.AppendExtraContacts | parse_tenant_csv.py:297-309 | the loop over contacts 3 to 5 completes the first four slots' contacts to the row's contacts |
| CsvRows.GatherCount | parse_tenant_csv.py:247-309 | one contact per present slot |
| CsvRows.GatherAt | parse_tenant_csv.py:247-309 | a present slot's contact sits after those of the present slots before it |
| CsvRows.GatherFrom | parse_tenant_csv.py:247-309 | every contact comes from a slot |
| CsvRows.RowContactsGood | parse_tenant_csv.py:247-309 | at most seven contacts, each with a stripped non-empty name and one or two classifications; the title is Leasing Agent exactly for ["Leasing"], and only the agent cells carry it |
| CsvRows.SecondContactPlacement | parse_tenant_csv.py:259-269 | contact 2 comes first or second, after contact 1 if present, and is classified as index 1, so its role is Secondary |
| CsvRows.OccupanciesContents | parse_tenant_csv.py:326-353 | no suite gives one occupancy without a unit; otherwise one per suite in order; each carries the property name, current building, move-in date and tenant status |
| CsvRows.BuildOccupancies | parse_tenant_csv.py:326-353 | the loop appends exactly those occupancies |
| CsvRows.StatusActiveIff | parse_tenant_csv.py:171-242 | the status is Active exactly when the status cell contains "Occupied" |
| CsvRows.BuildTenant | parse_tenant_csv.py:156-324 | the tenant a data row becomes, built step by step |
| CsvRows.ProcessRow | parse_tenant_csv.py:140-355 | one round of the row loop: skip, set the building, or append one tenant |
| CsvRows.ParseCsvToJson | parse_tenant_csv.py:129-355 | the row loop over the rows after the first five |
| CsvRows.RowTenantGood | parse_tenant_csv.py:156-355 | a data row's tenant has a stripped name that is not `-`, no header marker and no summary keyword; type Commercial, status Active or Past, at least one occupancy, all with its status |
| CsvRows.FoldTenants | parse_tenant_csv.py:139-355 | one tenant per data row, every one well formed |
| CsvRows.ParseRowsTenants | parse_tenant_csv.py:137-355 | the first five rows never give a tenant, at most one tenant per later row, every tenant well formed |
| CsvRows.HeaderSetsBuilding | parse_tenant_csv.py:144-150 | a `Building #N` row sets the current building to N and adds no tenant |
| CsvRows.DataRowOccupancies | parse_tenant_csv.py:326-355 | a data row appends one tenant, keeping those before, and all its occupancies are in the current building |
| Tickets.SelectMembers | app.js:19-47 | a list holds exactly the tickets, stamped with their keys, whose tests send them there |
| Tickets.PartitionComplete | app.js:19-47 | every ticket goes to exactly one of purged, filtered out, deleted, completed or active |
| Tickets.PurgeIdsArePurged | app.js:24-31 | the delete requests are the keys of the purged tickets, in order, whatever the property filter |
| Tickets.PurgeIdsMembers | app.js:24-31 | a key is sent for deletion exactly when its ticket was deleted before now minus 30 days |
| Tickets.BucketsMeaning | app.js:35-47 | deleted holds recently deleted tickets, completed the undeleted "Completed" ones, active the other undeleted ones; with a filter, all of the selected property |
| Tickets.SortDescSorted | app.js:50-84 | the sort is newest first, a missing time counting as 0 |
| Tickets.SortDescPermutes | app.js:50-84 | the sort only reorders |
| Tickets.SortDescStable | app.js:50-84 | tickets with equal times keep their order |
| Tickets.ShownTickets | app.js:62-92 | the cards show the tickets in order; the placeholder shows exactly when there is none |
| Tickets.ListView | app.js:50-92 | each list shows its bucket newest first, as a reordering, with the placeholder exactly when the bucket is empty |
| Tickets.AppendCards | app.js:65-67 | the forEach appends one card per ticket, in order |
| Tickets.RenderList | app.js:62-76 | a list gets the placeholder or the cards |
| Tickets.Board.constructor | app.js:3-9 | the lists start empty, the deleted one only where the page has it |
| Tickets.Board.Partition | app.js:11-48 | the three buckets and the delete requests of the forEach |
| Tickets.Board.RenderTickets | app.js:2-94 | each list is the sorted bucket as shown; the deleted list only when it exists; the delete requests are appended |
| TenantJson.OrDefault | import_tenants_browser.js:133-134 | JavaScript's or-default: the value when it is a non-empty string, otherwise the default |
| TenantJson.OrNull | import_tenants_browser.js:135-140 | or-null: null exactly for a missing or empty string |
| TenantJson.NumberOrNull | import_tenants_browser.js:139 | or-null on a number: null exactly for a missing value or 0 |
| Store.NamedMembers | import_tenants_browser.js:42-53 | the property query returns exactly the documents with that name |
| Store.OfPropertyMembers | import_tenants_browser.js:74-76 | the building query returns exactly the buildings of that property |
| Store.OfPropertyAppend | import_tenants_browser.js:74-76 | querying a grown collection finds the old matches, then the new ones |
| Store.UnitsAtMembers | import_tenants_browser.js:184-190 | the unit query returns exactly the units with that property, building and number; it is empty exactly when none has them |
| Store.Db.QueryProperties | import_tenants_browser.js:42-44 | one call: throws when scheduled to, else the named documents |
| Store.Db.QueryBuildings | import_tenants_browser.js:74-76 | one call: throws when scheduled to, else the property's buildings |
| Store.Db.QueryUnits | import_tenants_browser.js:184-188 | one call: throws when scheduled to, else the matching units |
| Store.Db.AddBuilding | import_tenants_browser.js:107 | one call: throws and writes nothing, or appends the document under a fresh id |
| Store.Db.AddUnit | import_tenants_browser.js:208 | one call: throws and writes nothing, or appends the document under a fresh id |
| Store.Db.AddTenant | import_tenants_browser.js:145 | one call: throws and writes nothing, or appends the document under a fresh id |
| Store.Db.AddContact | import_tenants_browser.js:167 | one call: throws and writes nothing, or appends the document under a fresh id |
| Store.Db.AddOccupancy | import_tenants_browser.js:231 | one call: throws and writes nothing, or appends the document under a fresh id |
| Store.FaultedJoin | import_tenants_browser.js:129-236 | a sequence of calls holds a throwing call exactly when one of its two halves does, which is how a step's failure is traced to its own calls |
| Store.FailedAtMeaning | import_tenants_browser.js:236-239 | the failed windows, in increasing order, are exactly those holding a throwing call |
| Units.FindOrCreateUnit | import_tenants_browser.js:182-212 | the first unit with that property, building and number and no write, or, when there is none, exactly one new Office/Occupied unit appended; units never duplicate a key; it fails exactly when one of its own store calls throws |
| Units.LookedUpData | import_tenants_browser.js:182-212 | on the units' data, a lookup leaves them unchanged when a unit has the key and otherwise appends the one new Office/Occupied unit |
| Units.UnitsForCovers | import_tenants_browser.js:182-212 | a run of lookups only appends units, and afterwards every key looked up has a unit |
| Units.UnitsForIdempotent | import_tenants_browser.js:182-212 | running the same unit lookups again on their result creates no unit |
| AutoImport.MatchesIsContains | import_tenants_browser.js:83-85 | the two exact-name tests are subsumed: a building matches N exactly when its name contains N |
| AutoImport.ExistingMeaning | import_tenants_browser.js:78-89 | number N is found exactly when some building document matches it, and it gets the id of the last one |
| AutoImport.MatchExisting | import_tenants_browser.js:78-89 | the forEach and its loop over the five numbers compute that match |
| AutoImport.ResolveBuildings | import_tenants_browser.js:91-111 | ids for exactly the five numbers: the found one, or a new building named "Building N"; a building is created only for numbers with no match, and nothing else is written; it fails exactly when one of its own store calls throws |
| AutoImport.ImportBuildings | import_tenants_browser.js:70-111 | step 2 fails exactly when one of its own store calls throws; on success it maps exactly the five numbers, each to the existing building of the property that matched it or to a new "Building N" of the property, and the new buildings, one per unmatched number, are the only writes |
| AutoImport.CreatedOfProperty | import_tenants_browser.js:98-107 | every created building is in the property |
| AutoImport.CreatedMatchesOnly | import_tenants_browser.js:83-100 | a created "Building N" is matched by N and by no other of the five numbers |
| AutoImport.ExistingAfterCreated | import_tenants_browser.js:74-111 | on a second run, a number is found exactly when it was found or created by the first, with the same id |
| AutoImport.ResolveIdempotent | import_tenants_browser.js:72-111 | a second run finds all five buildings under the first run's ids and creates none |
| AutoImport.NewTenant | import_tenants_browser.js:131-143 | name copied; type defaults to Commercial, status to Active; mailing address, notes, tax id, business type and website are null exactly when falsy and copied otherwise; the employee count is null exactly when missing or 0 |
| AutoImport.KeptContactsMeaning | import_tenants_browser.js:149-166 | a contact is written exactly when its name is truthy, not blank and not "TBD"; each is linked to the tenant and has classifications |
| AutoImport.ImportContacts | import_tenants_browser.js:149-169 | the loop writes exactly the kept contacts, in order, all linked to the tenant; it fails exactly when one of its store calls throws |
| AutoImport.PlacedMeaning | import_tenants_browser.js:172-179 | an occupancy is written exactly when its building number is truthy and resolved, which is one of the five numbers |
| AutoImport.ImportOccupancy | import_tenants_browser.js:179-231 | one occupancy for the tenant and property, with the first unit found or the one created, or no unit and no unit write without a unit number; at most one unit is written, an Office/Occupied one, and only when none had the key; dates, status Active by default, notes; it fails exactly when one of its store calls throws |
| AutoImport.ImportOccupancies | import_tenants_browser.js:172-233 | exactly the placed occupancies are written, in order, each linked to the tenant and property, and the units become exactly what their unit lookups give; it fails exactly when one of its store calls throws |
| AutoImport.ProcessTenant | import_tenants_browser.js:129-235 | it fails exactly when one of its store calls throws; on success the new tenant document holds NewTenant, followed by exactly its kept contacts and its placed occupancies, and the only units written are those its occupancies' lookups create; everything written is linked to the new tenant |
| AutoImport.ImportAll | import_tenants_browser.js:119-240 | each tenant gets its own window of store calls, the windows running from the start of the loop to its end; a tenant is an error exactly when a call in its window throws, and every other tenant is written in full whatever happened to the others, with nothing written after the last window; without failures all succeed and the store gains exactly the new tenants and, after them, their kept contacts |
| AutoImport.ImportIntoProperty | import_tenants_browser.js:61-240 | a building failure comes from a throwing call and stops the run before any tenant, unit, contact or occupancy is written; otherwise the five numbers have the ids of their matched or newly created buildings, only unmatched numbers being created, and each tenant is an error exactly when its own calls throw, every other tenant being written in full and nothing after the last; without failures every tenant succeeds with exactly its data and kept contacts |
| AutoImport.ImportTenantsFromJSON | import_tenants_browser.js:19-240 | the run stops at the property lookup exactly when the property query's own call throws, and reports the property missing exactly when that call succeeds and no property has the name; in both cases, and when the file fails to load, nothing is written; any later outcome needs a loaded file, an unfaulted query and the property present; a lookup or building failure comes from a throwing call, and a building failure writes no tenant data; on completion the five numbers have the ids of their matched or created buildings, and each tenant of the file is an error exactly when its own calls throw while every other one is written in full into the found property, with nothing written after the last; without failures exactly the file's tenants and kept contacts are written |
| ConfigImport.TenantDoc | import_tenants_from_json.js:87-99 | every tenant field is copied verbatim |
| ConfigImport.ContactDoc | import_tenants_from_json.js:107-117 | the tenant link plus every contact field copied verbatim |
| ConfigImport.TenantDocs | import_tenants_from_json.js:81-103 | one verbatim tenant document per tenant, in order |
| ConfigImport.LocatedMeaning | import_tenants_from_json.js:124-129 | an occupancy is written exactly when its building number has a non-empty configured id |
| ConfigImport.ImportOccupancy | import_tenants_from_json.js:131-177 | one occupancy for the tenant and configured property, with the first unit found or the one created, or no unit and no unit write without a unit number; at most one unit is written, an Office/Occupied one, and only when none had the key; status and notes verbatim, absent dates null; it fails exactly when one of its store calls throws |
| ConfigImport.ImportOccupancies | import_tenants_from_json.js:124-179 | exactly the located occupancies are written, in order, all in the configured property, and the units become exactly what their unit lookups give; it fails exactly when one of its store calls throws |
| ConfigImport.ImportContacts | import_tenants_from_json.js:106-121 | every contact is written verbatim, in order, linked to the tenant; it fails exactly when one of its store calls throws |
| ConfigImport.ProcessTenant | import_tenants_from_json.js:85-179 | it fails exactly when one of its store calls throws; on success the tenant is written verbatim, followed by all its contacts verbatim and its located occupancies, all linked to it, and the only units written are those its occupancies' lookups create |
| ConfigImport.Summarise | import_tenants_from_json.js:180-182 | one summary per tenant with its contact and occupancy counts |
| ConfigImport.ImportAll | import_tenants_from_json.js:80-186 | each tenant gets its own window of store calls, the windows running from the start of the loop to its end; the failed indices, in increasing order, are exactly the tenants with a throwing call in their window, and every other tenant is written in full whatever happened to the others, with nothing written after the last window; without failures every tenant is written verbatim in order |
| ConfigImport.ImportTenantsBrowser | import_tenants_from_json.js:46-192 | the placeholder property id stops the run before loading; a failed load stops it; a dry run gives summaries; none of these writes anything; an import reports exactly the tenants whose own calls threw and writes every other tenant in full, linked |

## Left out

- File and network I/O is left out. The CSV is taken as rows already split into
  cells, the JSON file as a parsed value or a failed load, and the JSON output is
  not written. `fetch`, `alert`, `console` output and the `window` registration
  are also left out. The dry-run summaries and the failed-tenant indices stand in
  for the log lines.
- `parse_date` formats are not modelled, because it relies on `datetime.strptime`.
- CsvRows.DateCandidate: states only that a date is attempted on non-placeholder,
  stripped text. The formatted date is opaque.
- `clean_currency`, the floating-point occupancy notes and the tenant-notes text
  are not modelled. They are floating point or formatting only.
- `lower()`, `isdigit()` and the regular expression `\d` are modelled for ASCII
  only.
- CleanNumber: the digit limit of `int()` is CPython's default of 4300. A limit
  changed through `PYTHONINTMAXSTRDIGITS` or `sys.set_int_max_str_digits` is not
  modelled, and neither are older Python releases that have no limit.
- `importTenantsNode` is an unimplemented stub around the server SDK and is not
  modelled.
- The Firestore client is replaced by the in-memory store:
  - server timestamps are not recorded;
  - `Timestamp.fromDate(new Date(s))` is an opaque value of the date text, so an
    invalid date cannot throw;
  - query results are in collection order;
  - a failure is one throwing call, and writes made before it persist.
- The asynchronous, fire-and-forget delete of an expired ticket is modelled only
  as the delete request. Its failure is not modelled.
- Tickets are modelled as values:
  - timestamps are optional integers in milliseconds;
  - the `toDate`/`toMillis` shape test is not modelled;
  - a present `deletedAt` of 0, which JavaScript treats as falsy, is treated as
    present.
- Tickets.Board.Partition: the write of `ticket.id` into each input object and the
  in-place sort are modelled on values. The buckets hold stamped copies, so
  aliasing of the input objects is not captured.
- The DOM is modelled as a list of card and placeholder elements.
- PlacedMeaning (AutoImport.PlacedMeaning), and the lookup `Placed` it describes: the resolved ids are a
  map, so a building number naming a member every JavaScript object inherits,
  such as `toString` or `constructor`, counts as unresolved. The browser script
  finds a truthy function there and writes the occupancy. With a unit number,
  that write queries the units by a function, which is outside the store model.
- LocatedMeaning (ConfigImport.LocatedMeaning), and the lookup `BuildingFor` it describes: the configured ids
  are a map in the same way. A building number such as `toString` counts as
  unconfigured, while `CONFIG.buildingIds[...]` finds an inherited function and
  writes the occupancy.
- JavaScript `undefined` and `null` are both `None`:
  - an occupancy without a building number, which the configured import looks up
    under the key "undefined", is simply unlocated;
  - a tenant record without `contacts` or `occupancies` has empty lists.
- A file without a `tenants` array, which throws in both scripts, is not modelled.
