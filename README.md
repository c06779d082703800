# Condo package tracking — a verified model of the route handlers

The backend tracks parcels that arrive at a condominium's front desk.
- Officers register each package for a tenant and move it between ARRIVED, PICKED_UP and RETURNED.
- Every change appends an entry to the package's status history.
- Administrators browse and correct packages, and maintain the directory of buildings, rooms, tenants and officers.
- Tenants see only their own packages and may edit their phone number and e-mail.

This project models the three Express route files (`backend/routes/admin.js`,
`backend/routes/officer.js`, `backend/routes/tenant.js`) over an in-memory
database. It proves what each handler does to that database and what it answers.

Layout:

- `prelude.dfy` (module `Prelude`): optional values, the status enum, and JavaScript truthiness of request fields (`x || null`, `x || ""`).
- `text.dfy` (`Text`): `trim`, UTF-16 length, the e-mail regular expression as a scanner proved equal to its pattern, lowercasing and substring search.
- `schema.dfy` (`Schema`): one datatype per table row and `Db`, a whole database state. It defines:
  - `Consistent`: every foreign key holds and each account backs at most one profile;
  - `Audited`: every package keeps its creation entry;
  - `ArrivedUnpicked`: an ARRIVED package has no pickup time;
  - `KeepLogs`: the log entries a `delete from package_status_log where …` spares.
- `ledger.dfy` (`Ledger`): each write path as a function on `Db`, with the lemmas that it keeps the invariants.
  - The write paths are the status transition and its pickup-time rule, the log append, creation, package delete, and the tenant, officer, building and room cascades.
  - The invariants include `HistoryAgrees`: every package's newest history entry records its current status.
- `query.dfy` (`Query`): the filter builders' conditions and their `$n` placeholder discipline, the joined rows they are evaluated on, and `order by … desc limit n` as an admissible-answer predicate with a selection method proved against it.
- `auth.dfy` (`Auth`): bearer-token parsing and the `requireAdmin` / `requireOfficer` guards over an abstract token map.
- `store.dfy` (`Database`): class `Store`, whose fields are the tables. Each method is one SQL statement.
  - A statement that would violate a foreign key fails and changes nothing.
  - `State()` is the database as a `Db` value, and `Restore` is `rollback`.
- `admin.dfy`, `officer.dfy`, `tenant.dfy` (`AdminRoutes`, `OfficerRoutes`, `TenantRoutes`): the handlers, as methods over a `Store` that return the HTTP code and message.

Behaviour of the code that the model keeps as written, though a reader might expect otherwise:

- **Create and PATCH are not transactional.** The row update (or insert) and the log insert are two separate statements (`admin.js:736-753`, `officer.js:222-239`, `officer.js:384-406`). Every multi-statement delete in `admin.js` runs between `begin` and `commit` (`admin.js:209-229`, `admin.js:324-340`, `admin.js:472-474`, `admin.js:598-600`, `admin.js:766-773`); create and PATCH do not. See Findings.
- **Creation never sets `picked_up_at`,** even for an initial status of PICKED_UP. RETURNED keeps whatever pickup time the row had. So "pickup time is set iff the status is not ARRIVED" holds only in the direction proved here: `ArrivedUnpicked`.
- **Most officer routes have no guard.** Apart from `GET /me`, no officer handler calls `requireOfficer`, and they are modelled without one.
- **The desk officer is hard-coded.** The acting officer for create and PATCH is staff 1, not the caller.

## Model

| member | source | states |
|---|---|---|
| Prelude.ParseStatus | backend/routes/officer.js:8 | a text names a status exactly when it is one of ARRIVED, PICKED_UP, RETURNED, and the status prints back as that text |
| Prelude.OrNull | backend/routes/officer.js:228 | `x \|\| null`: present exactly when the field is truthy, and then the field itself |
| Prelude.OrEmpty | backend/routes/admin.js:752 | `x \|\| ""`: the field when truthy, otherwise the empty string |
| Prelude.Requested | backend/routes/admin.js:727-729 | a request names a status exactly when the field is truthy and one of the three, and that status prints as the field |
| Text.Trim | backend/routes/tenant.js:258 | the result is a slice of the input with no leading or trailing whitespace, and only whitespace was removed |
| Text.Utf16Length | backend/routes/tenant.js:259 | `length` counts one unit per BMP character and two per supplementary character |
| Text.EmailOkIffPattern | backend/routes/tenant.js:268-269 | the scanner accepts a string exactly when it matches `^[^\s@]+@[^\s@]+\.[^\s@]+$` (both directions) |
| Text.ScanImpliesPattern | backend/routes/tenant.js:268-269 | a string the scanner accepts has a split into local part, domain and suffix as the pattern requires |
| Text.PatternImpliesScan | backend/routes/tenant.js:268-269 | every string that matches the pattern is accepted by the scanner |
| Text.Lower | backend/routes/tenant.js:156-161 | `toLowerCase`/`lower`: same length, each character lowered |
| Schema.KeepLogs | backend/routes/admin.js:119-122 | the entries kept are exactly the old entries the `where` spares, and there are no more of them |
| Schema.KeepLogsIncreasing | backend/routes/admin.js:119-122 | deleting log rows keeps the remaining ids in insertion order |
| Schema.KeepLogsAppend | backend/routes/admin.js:747-753 | filtering a log with one more entry extends the filtered log by that entry exactly when it is kept |
| Schema.KeepLogsNotInTwice | backend/routes/admin.js:132-133 | two package-id deletes in a row remove what one delete over both id sets removes |
| Schema.KeepLogsAll | backend/routes/admin.js:120 | a delete that matches no entry leaves the log unchanged |
| Ledger.PickupRule | backend/routes/admin.js:730-735 | the `now()` expression is chosen exactly for PICKED_UP, `null` exactly for ARRIVED |
| Ledger.PickupRuleMatchesTransition | backend/routes/admin.js:730-745 | the update with that expression and `coalesce($1, current_status)` yields the row `Transition` prescribes |
| Ledger.Transition | backend/routes/admin.js:736-745 | only status and pickup time change; a row without a pickup time while ARRIVED stays so, and any transition other than RETURNED re-establishes it |
| Ledger.HistoryAfterAppend | backend/routes/admin.js:747-753 | an appended entry extends its own package's history by itself and leaves every other history as it was |
| Ledger.NoHistory | backend/routes/officer.js:231-239 | a package id with no log entry has an empty history |
| Ledger.Logged | backend/routes/admin.js:747-753 | the insert appends exactly one entry with the next log id and changes nothing else; only that package's history grows |
| Ledger.LoggedSound | backend/routes/admin.js:747-753 | an entry naming an existing package and staff member keeps the state consistent, audited and ArrivedUnpicked |
| Ledger.Inserted | backend/routes/officer.js:222-229 | the new row goes under the next package id, which no existing package holds in a consistent state |
| Ledger.Registered | backend/routes/officer.js:222-239 | creation adds the row under the next package id and one entry, advances both sequences, and leaves every other package's history as it was |
| Ledger.RegisteredHistory | backend/routes/officer.js:231-239 | in a consistent state the new package's history is exactly its creation entry, with the row's status and receiving staff |
| Ledger.RegisteredSound | backend/routes/officer.js:222-239 | creation for an existing tenant and staff member keeps consistency, the creation-entry invariant and ArrivedUnpicked |
| Ledger.InsertedSound | backend/routes/officer.js:222-229 | the insert alone keeps consistency and ArrivedUnpicked |
| Ledger.RegisteredAudited | backend/routes/officer.js:231-239 | after creation every package, the new one included, has an entry by its receiving staff member |
| Ledger.Patched | backend/routes/admin.js:736-745 | the update changes one row as `Transition` says and keeps all three invariants |
| Ledger.KeepLogsSubsumed | backend/routes/admin.js:767 | a delete does not change the history of a package it does not name |
| Ledger.DropPackage | backend/routes/admin.js:767-768 | the package and exactly its entries are gone; every other package's history is unchanged |
| Ledger.DropPackageSound | backend/routes/admin.js:761-774 | package delete keeps consistency, the creation-entry invariant and ArrivedUnpicked |
| Ledger.DropTenants | backend/routes/admin.js:117-128 | the tenants' packages, those packages' entries, the tenant rows and their accounts are gone, and nothing else is |
| Ledger.DropTenantsSound | backend/routes/admin.js:117-128 | the tenant cascade leaves no orphan and keeps the other two invariants |
| Ledger.DropStaff | backend/routes/admin.js:130-139 | the member's entries, the packages they received with those packages' entries, the staff row and its account are gone, and nothing else is |
| Ledger.DropStaffSound | backend/routes/admin.js:130-139 | the staff cascade leaves no orphan and keeps the other two invariants |
| Ledger.DropTenantsAbsent | backend/routes/admin.js:467-475 | cascading a tenant that does not exist changes nothing |
| Ledger.DropStaffAbsent | backend/routes/admin.js:593-601 | cascading a staff member who does not exist changes nothing |
| Ledger.DropBuilding | backend/routes/admin.js:210-224 | the building, its rooms, its tenants, their packages, entries and accounts are gone, and nothing else is |
| Ledger.DropBuildingSound | backend/routes/admin.js:204-230 | the building delete keeps consistency, the creation-entry invariant and ArrivedUnpicked |
| Ledger.DropRoom | backend/routes/admin.js:325-335 | the room, its tenants, their packages, entries and accounts are gone, and nothing else is |
| Ledger.DropRoomSound | backend/routes/admin.js:319-341 | the room delete keeps consistency, the creation-entry invariant and ArrivedUnpicked |
| Ledger.DropTenantsStep | backend/routes/admin.js:219-221 | cascading one more tenant after a set of them equals cascading the enlarged set, so the loop order is irrelevant |
| Ledger.DropTenantsNone | backend/routes/admin.js:219-221 | a loop over no tenant changes nothing |
| Ledger.DropTenantsHistories | backend/routes/admin.js:117-128 | the tenant cascade leaves every surviving package's history unchanged |
| Ledger.RegisteredAgrees | backend/routes/officer.js:222-239 | creation keeps every package's newest entry equal to its status |
| Ledger.PatchLoggedAgrees | backend/routes/admin.js:736-753 | update followed by its log entry keeps every package's newest entry equal to its status |
| Ledger.DropPackageAgrees | backend/routes/admin.js:767-768 | package delete keeps newest entry and status in agreement |
| Ledger.DropTenantsAgrees | backend/routes/admin.js:117-128 | the tenant cascade keeps newest entry and status in agreement |
| Ledger.Contacted | backend/routes/tenant.js:280-285 | the profile update sets one tenant's phone and e-mail and changes no other tenant |
| Ledger.ContactedSound | backend/routes/tenant.js:280-285 | the profile update keeps all four invariants |
| Query.Upto | backend/routes/admin.js:618 | `$1 … $n` in order |
| Query.NumberedPush | backend/routes/admin.js:619-621 | pushing a condition that reads `$idx` together with its value (or one without placeholder) keeps the k-th placeholder bound to the k-th value |
| Query.SlotsBound | backend/routes/admin.js:616-640 | under that discipline every placeholder of the clause has a bound value |
| Query.HoldsExtended | backend/routes/admin.js:616-640 | binding further values does not change a condition whose placeholders are already bound |
| Query.HoldsAllPush | backend/routes/admin.js:616-640 | after a push the clause means the old clause and the new condition |
| Query.Push | backend/routes/officer.js:93-101 | one `filters.push` with its `values.push`: the discipline holds and the clause now also demands the condition |
| Query.RangeEnd | backend/routes/admin.js:624-625 | the end date is the given one, else today exactly when a start date is given |
| Query.PushRange | backend/routes/admin.js:627-633 | a start date adds `>= start` and `<= end or today`, each at the next placeholder |
| Query.PushStatus | backend/routes/admin.js:619-622 | a truthy status adds `current_status = $idx` with that text; otherwise nothing |
| Query.PushEntryStatus | backend/routes/admin.js:792-795 | a truthy status adds `psl.status = $idx`; otherwise nothing |
| Query.PushUnit | backend/routes/officer.js:98-101 | a truthy unit adds `building_code \|\| room_no = $idx` |
| Query.PushLoggedOn | backend/routes/officer.js:320-323 | a date adds `status_time::date = $idx` |
| Query.PushSearch | backend/routes/tenant.js:154-163 | a truthy search adds one condition whose single value `%lower(x)%` serves all four `like` tests |
| Query.LatestNote | backend/routes/officer.js:280-294 | "" when the package has no entry; otherwise the note of an entry no entry of that package is newer than |
| Query.UnitOf | backend/routes/admin.js:689-691 | a unit label exists exactly when the tenant, its room and its building rows exist, and it is building code followed by room number |
| Query.MaxExists | backend/routes/admin.js:659-660 | a non-empty candidate set has an element of greatest key |
| Query.SelectTop | backend/routes/admin.js:659-660 | the result is an admissible `order by key desc limit n` answer: distinct candidates, min(n, all) of them, in non-increasing order, none omitted ranking higher |
| Query.TopOne | backend/routes/officer.js:280-289 | a `limit 1` answer is empty exactly when there are no candidates, otherwise a greatest one |
| Query.TopAll | backend/routes/tenant.js:213-225 | without a limit the answer holds every candidate |
| Query.DistinctCard | backend/routes/tenant.js:213-225 | a sequence of distinct elements has as many elements as its set |
| Query.CardLess | backend/routes/tenant.js:213-225 | a proper subset is smaller |
| Auth.BearerToken | backend/routes/admin.js:14-19 | a token exists exactly when the header starts with "Bearer " and something follows; the header is that prefix plus the token |
| Auth.Authenticate | backend/routes/tenant.js:14-28 | passes exactly for a verified token, with its claims; otherwise 401 "Unauthorized" without a token and 401 "Invalid token" for a bad one |
| Auth.RequireAdmin | backend/routes/admin.js:12-37 | passes exactly for an authenticated ADMIN; a denial is 401 exactly when authentication failed, otherwise 403 |
| Auth.RequireOfficer | backend/routes/officer.js:10-35 | passes exactly for an authenticated OFFICER or ADMIN; a denial is 401 exactly when authentication failed, otherwise 403 |
| Auth.AdminIsOfficer | backend/routes/officer.js:25-27 | every caller the admin guard admits is admitted by the officer guard with the same claims |
| Database.Store.Restore | backend/routes/admin.js:226 | `rollback` returns every table to the snapshot |
| Database.Store.InsertPackage | backend/routes/officer.js:222-229 | the insert succeeds exactly when tenant and receiving staff exist, and then yields `Inserted` under the next id; otherwise nothing changes |
| Database.Store.UpdatePackage | backend/routes/admin.js:736-745 | the row is found exactly when it exists; then it gets the new status and the chosen pickup expression; only `packages` changes |
| Database.Store.InsertLog | backend/routes/admin.js:747-753 | the insert succeeds exactly when package and staff exist, and then yields `Logged`; otherwise nothing changes |
| Database.Store.DeleteLogs | backend/routes/admin.js:120 | the log becomes the entries the `where` spares; nothing else changes |
| Database.Store.DeletePackages | backend/routes/admin.js:123 | succeeds exactly when no entry still names a doomed package; then exactly those rows are gone |
| Database.Store.DeleteTenantRow | backend/routes/admin.js:124 | succeeds exactly when no package names the tenant; returns the account id of a deleted row |
| Database.Store.DeleteStaffRow | backend/routes/admin.js:135 | succeeds exactly when no package or entry names the member; returns the account id of a deleted row |
| Database.Store.DeleteUser | backend/routes/admin.js:126 | succeeds exactly when no tenant or staff row rests on the account |
| Database.Store.SelectTenantIds | backend/routes/admin.js:211-218 | each tenant of the building (and room) exactly once |
| Database.Store.DeleteRooms | backend/routes/admin.js:223 | deletes exactly the matching rooms, and succeeds exactly when no tenant lives in one |
| Database.Store.DeleteBuildingRow | backend/routes/admin.js:224 | reports whether the row existed, and succeeds exactly when no room still belongs to it |
| Database.Store.UpdateTenantContact | backend/routes/tenant.js:282-285 | only the given columns of that tenant row change |
| AdminRoutes.DeleteTenantCascade | backend/routes/admin.js:117-128 | on success the state is `DropTenants` of the old one; in a consistent state it always succeeds |
| AdminRoutes.DeleteStaffCascade | backend/routes/admin.js:130-139 | on success the state is `DropStaff` of the old one; in a consistent state it always succeeds |
| AdminRoutes.DeleteTenant | backend/routes/admin.js:467-483 | guard denial changes nothing; 200 "Deleted" leaves `DropTenants` (also for an unknown id); 500 only from an inconsistent state, rolled back |
| AdminRoutes.DeleteOfficer | backend/routes/admin.js:593-609 | guard denial changes nothing; 200 "Deleted" leaves `DropStaff`; 500 only from an inconsistent state, rolled back |
| AdminRoutes.CascadeAll | backend/routes/admin.js:219-221 | the loop over the selected tenants leaves `DropTenants` of all of them and cannot fail in a consistent state |
| AdminRoutes.CascadeNext | backend/routes/admin.js:220 | one loop turn extends the set of cascaded tenants by one |
| AdminRoutes.DeleteBuilding | backend/routes/admin.js:204-238 | 200 leaves `DropBuilding` of an existing building; 404 "Not found" only for a missing one, rolled back; 500 only from an inconsistent state; in a consistent state 200 exactly when the building exists |
| AdminRoutes.DeleteRoom | backend/routes/admin.js:319-349 | the same for `DropRoom` and a room key |
| AdminRoutes.DeletePackage | backend/routes/admin.js:761-782 | 200 leaves `DropPackage`; 404 "Not found" exactly when the id is unknown, with the state restored |
| AdminRoutes.CreatePackage | backend/routes/admin.js:715-718 | an admin always gets 403 with the officer-workflow message |
| AdminRoutes.PatchPackage | backend/routes/admin.js:720-759 | as written. 400 exactly when staff_id is missing or the status invalid, with no change; 404 only for an unknown id, with no change; 200 leaves update then entry; 500 leaves the update without its entry |
| AdminRoutes.PatchPackageAtomic | backend/routes/admin.js:720-759 | corrected: any answer but 200 leaves the state unchanged, and the newest entry keeps agreeing with the status |
| AdminRoutes.SampleDb | backend/routes/admin.js:736-753 | a state with package 1 ARRIVED and staff 1 but no staff 999 |
| AdminRoutes.SampleHistory | backend/routes/admin.js:747-753 | the sample package's history is its single ARRIVED entry |
| AdminRoutes.SampleSound | backend/routes/admin.js:736-753 | the sample state is consistent, audited and agreeing |
| AdminRoutes.PartialPatchDisagrees | backend/routes/admin.js:736-753 | PATCH to PICKED_UP with staff_id 999 on the sample leaves a row whose status its history does not record |
| AdminRoutes.PushListWindow | backend/routes/admin.js:624-640 | start date first, then last7 / last30 / month, else no date condition |
| AdminRoutes.BuildListFilter | backend/routes/admin.js:615-641 | the clause is placeholder-disciplined and holds exactly for rows with the requested status inside the window |
| AdminRoutes.ListPackages | backend/routes/admin.js:612-669 | an admin gets an admissible answer: newest 300 joined packages the filter admits |
| AdminRoutes.GetPackage | backend/routes/admin.js:671-713 | 200 exactly when the package and its tenant, room and building exist, else 404 "Not found"; the note is the newest entry's or "" |
| AdminRoutes.BuildFeedFilter | backend/routes/admin.js:788-796 | the clause holds exactly for entries of the requested status |
| AdminRoutes.PackageLog | backend/routes/admin.js:785-826 | an admin gets the newest 400 entries with a joined package, filtered by status |
| OfficerRoutes.Me | backend/routes/officer.js:38-58 | guard denial as `requireOfficer`; 200 exactly when a staff row rests on the caller's account, returning that row; otherwise 404 "Profile not found" |
| OfficerRoutes.PushDashboardWindow | backend/routes/officer.js:68-91 | range, then last7 / last30 / month, then a single date, then today |
| OfficerRoutes.BuildDashboardFilter | backend/routes/officer.js:64-103 | the clause is placeholder-disciplined and holds exactly for rows in the window with the requested status and unit |
| OfficerRoutes.Dashboard | backend/routes/officer.js:125-141 | the list is an admissible newest-50 answer over the joined packages the filter admits |
| OfficerRoutes.EffectiveStatus | backend/routes/officer.js:214 | the given valid status, else ARRIVED |
| OfficerRoutes.CreatedRow | backend/routes/officer.js:222-229 | tenant as given, staff 1, empty tracking/carrier become null, arrival given or now, no pickup time |
| OfficerRoutes.CreatePackage | backend/routes/officer.js:201-246 | 400 exactly for a missing tenant id, an invalid status or an unknown tenant, with the handler's message and no change; for a valid request 201 "Created" exactly when staff 1 exists, leaving `Registered` under the next id, otherwise 500 with no change; keeps every invariant |
| OfficerRoutes.CreatedHistory | backend/routes/officer.js:231-239 | the created package's history is one entry with the effective status, staff 1 and the note |
| OfficerRoutes.GetPackage | backend/routes/officer.js:249-299 | 200 exactly when the package, its unit and its receiving staff row exist, else 404 "Package not found"; the note is the newest entry's or "" |
| OfficerRoutes.BuildFeedFilter | backend/routes/officer.js:302-324 | the clause holds exactly for entries with the requested status, unit and day |
| OfficerRoutes.PackageLog | backend/routes/officer.js:325-350 | the newest 200 joined entries the filter admits |
| OfficerRoutes.PatchPackage | backend/routes/officer.js:362-413 | 400 "Invalid status" exactly when no valid status is given, with no change; 404 only for an unknown id, with no change; 200 leaves update then entry by staff 1; 500 leaves the update without entry, only when staff 1 is missing |
| TenantRoutes.ContextOf | backend/routes/tenant.js:33-43 | the profile carries the row's tenant id, phone and e-mail |
| TenantRoutes.GetTenantContext | backend/routes/tenant.js:12-60 | 401 as authentication says; a profile exactly when the account backs a tenant row with room and building; otherwise 404 "Tenant profile not found" |
| TenantRoutes.ContextUnique | backend/routes/tenant.js:44-54 | in a consistent state the account backs at most one tenant row, so the first row is the only one |
| TenantRoutes.Dashboard | backend/routes/tenant.js:63-116 | 401 as authentication says; 404 "Tenant profile not found" exactly when the account backs no joined tenant row; otherwise 200, the three counts are the caller's ARRIVED, picked-up-this-month and RETURNED packages and the list is an admissible newest-5 answer over the waiting ones |
| TenantRoutes.LatestWaitingBounds | backend/routes/tenant.js:94-107 | the list is no longer than the waiting count, shows every waiting package when there are at most five, and holds only the caller's packages |
| TenantRoutes.SearchMeansMentions | backend/routes/tenant.js:154-161 | the `%x%` pattern makes the four `like` tests a case-insensitive substring search |
| TenantRoutes.PushTenantWindow | backend/routes/tenant.js:129-147 | start date range first, then today / last7 / last30 / month; an unknown period adds nothing |
| TenantRoutes.BuildTenantFilter | backend/routes/tenant.js:124-163 | the clause is placeholder-disciplined and holds exactly for the caller's packages in the window with the status and search |
| TenantRoutes.ListPackages | backend/routes/tenant.js:119-190 | 401 as authentication says; 404 "Tenant profile not found" exactly when the account backs no joined tenant row; otherwise 200 with an admissible newest-200 answer over the caller's matching packages; every returned package belongs to a tenant row of the caller's account |
| TenantRoutes.PackageLogs | backend/routes/tenant.js:193-236 | 401 as authentication says, 404 "Tenant profile not found" without a profile; then 404 "Package not found" exactly for an unknown package, 403 "Forbidden" with no entries for a package of no tenant row of the caller, and in a consistent state 200 for the caller's own package, with every entry of it whose author exists, each once, newest first |
| TenantRoutes.LogsOwnership | backend/routes/tenant.js:209-211 | in a consistent state a package that passes the check belongs to the caller's own tenant row |
| TenantRoutes.BuildProfileUpdate | backend/routes/tenant.js:251-278 | rejection messages in the handler's order; an edit exactly when some field is given and each given one is valid, carrying the trimmed values |
| TenantRoutes.UpdateProfile | backend/routes/tenant.js:246-297 | 401 as authentication says, 404 without a profile; then 400 exactly when nothing is given, the phone is not 1-32 characters or the e-mail does not match, with the first failing check's message, else 200; nothing changes unless 200; on 200 only the caller's phone and e-mail change, to the trimmed values, and the returned profile equals the profile the new state holds |

## Left out

- Token signing and verification, and password hashing, are replaced by a partial map from token text to claims; the login routes in `backend/routes/auth.js` are not part of this model.
- The connection pool, `backend/server.js`, `backend/db.js` and the Express plumbing (I/O) are left out. Each handler is a method returning the status code and message.
- Response payload shapes (the selected columns and their aliases) are not modelled. Handlers return ids, entries or notes.
- Unparseable ids and dates make Postgres raise, and the handler answers 500 "Server error". Parameters here are already typed integers, so that path is not modelled.
- The catch-all 500 of each handler is not modelled for statements that cannot fail on a well-typed store. Selects and log deletes are examples.
- SQL time is the `Clock` parameter.
  - `now()`, `current_date` and `toISOString().slice(0, 10)` are integers; `::date` is division by 86400.
  - Time zones are not modelled: the UTC day and the server day are separate fields, as in the code.
- `Text.Lower` lowers ASCII letters only; Unicode case mapping is not modelled.
- `String(x)` of non-string phone or e-mail values is not modelled: the fields are strings.
- SQL `like` wildcards (`%`, `_`) inside the tenant's search text are treated as literal characters.
- The officer routes join tenant to room by `room_id`, the admin and tenant routes by `(building_id, room_no)`. Both are modelled by `Query.UnitOf`.
- Database.Store.InsertPackage: the package and log sequences (`nextPackageId`, `nextLogId`) advance only on a successful insert, and `Database.Store.Restore` resets them with the tables. In Postgres a failed insert (the officer create without staff 1, a PATCH log insert naming a missing staff member) and a rolled-back one still consume their sequence value. After such a failure the model hands out a smaller id than the database would; ids are only ever compared for freshness, which both give. `Database.Store.InsertLog` and `OfficerRoutes.CreatePackage`'s `id == nextPackageId` clause share this.
- Handlers left out: the dashboard and summary cards of the officer and admin views, `unitOptions`, `GET /package-form`, and the directory list, create and update handlers for buildings, rooms, tenants and officers. Postgres error-code mapping (23503/23505) goes with them.
- `GET /tenant/profile` only returns the context: it is `TenantRoutes.GetTenantContext`.
- Concurrency and interleaving of requests are not modelled; every handler runs alone.
- The officer and tenant feeds return log entries. Rows whose author was deleted, or whose author's `coalesce(..., 'Unknown')` name is shown, are not distinguished in the officer feed.
- Ledger.DropStaffSound: does not claim `HistoryAgrees` after the staff cascade. Deleting a member's entries can remove the newest entry of another member's package, so the code does not keep it.

## Findings

| source | as written | input that shows it | evidently intended | confidence | as-written member | corrected member |
|---|---|---|---|---|---|---|
| backend/routes/admin.js:736-753 | PATCH updates the package, then inserts the log entry as a separate statement; when the insert fails the update stays and the answer is 500 | `PATCH /admin/packages/1` with `{"status": "PICKED_UP", "staff_id": 999}` where package 1 is ARRIVED and no staff 999 exists | the update and its log entry commit together; a failed insert leaves the package as it was | not executed | AdminRoutes.PartialPatchDisagrees | AdminRoutes.PatchPackageAtomic |

The officer PATCH (`backend/routes/officer.js:384-406`) has the same shape. It fails the same way when staff 1 does not exist, as `OfficerRoutes.PatchPackage`'s 500 clause states.
