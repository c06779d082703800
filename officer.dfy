/** The officer routes (backend/routes/officer.js). Only GET /me runs
    `requireOfficer`; the other handlers do not check the caller and are
    modelled that way. Every write is attributed to the fixed staff id 1. */
module OfficerRoutes {

  import opened Prelude
  import opened Schema
  import opened Ledger
  import opened Query
  import opened Auth
  import opened Database

  /** The staff member every officer write is attributed to. */
  const DeskOfficer: StaffId := 1

  /** GET /me: the staff row of the caller's account; 404 when there is none. */
  method Me(store: Store, header: Option<string>, tokens: map<string, Claims>) returns (reply: Reply, staffId: Option<StaffId>)
    ensures RequireOfficer(header, tokens).Deny? ==>
      reply == Reply(RequireOfficer(header, tokens).code, RequireOfficer(header, tokens).message) && staffId == None
    ensures RequireOfficer(header, tokens).Pass? ==>
      (reply.code == 200 <==>
        exists s :: s in store.staff && store.staff[s].user == RequireOfficer(header, tokens).claims.userId)
    ensures RequireOfficer(header, tokens).Pass? && reply.code != 200 ==> reply == Reply(404, "Profile not found")
    ensures reply.code == 200 ==>
      && staffId.Some? && staffId.value in store.staff
      && store.staff[staffId.value].user == RequireOfficer(header, tokens).claims.userId
  {
    var gate := RequireOfficer(header, tokens);
    if gate.Deny? {
      return Reply(gate.code, gate.message), None;
    }
    var mine := set s | s in store.staff && store.staff[s].user == gate.claims.userId;
    if |mine| == 0 {
      forall s | s in store.staff ensures store.staff[s].user != gate.claims.userId {
        assert s !in mine;
      }
      return Reply(404, "Profile not found"), None;
    }
    ghost var w := Witness(mine);
    var s :| s in mine;
    reply, staffId := Reply(200, ""), Some(s);
  }

  /** The query of GET /dashboard. */
  datatype DashboardQuery = DashboardQuery(
    status: Option<string>,
    unit: Option<string>,
    date: Option<int>,
    period: Option<string>,
    startDate: Option<int>,
    endDate: Option<int>)

  /** The arrival-day window of the dashboard list, by precedence: a start
      date's range, then the period, then a single date, then today. */
  predicate InDashboardWindow(q: DashboardQuery, d: int, clk: Clock)
  {
    if q.startDate.Some? then InRange(q.startDate.value, q.endDate, d, clk)
    else if q.period == Some("last7") then d >= Today(clk) - 6
    else if q.period == Some("last30") then d >= Today(clk) - 29
    else if q.period == Some("month") then MonthOf(d) == MonthOf(Today(clk))
    else if q.date.Some? then d == q.date.value
    else d == Today(clk)
  }

  /** Which joined package rows the dashboard list asks for: the date
      window, and the status and unit filters on top. */
  predicate DashboardWants(q: DashboardQuery, row: Row, clk: Clock)
  {
    && InDashboardWindow(q, DayOf(row.pkg.arrivedAt), clk)
    && (Truthy(q.status) ==> StatusName(row.pkg.status) == q.status.value)
    && (Truthy(q.unit) ==> row.unit == q.unit.value)
  }

  /** The date part of the dashboard filter. */
  method PushDashboardWindow(conds: seq<Cond>, vals: seq<Param>, idx: nat, q: DashboardQuery, clk: Clock)
    returns (conds': seq<Cond>, vals': seq<Param>, idx': nat)
    requires Numbered(conds, vals) && idx == |vals| + 1
    ensures Numbered(conds', vals') && idx' == |vals'| + 1
    ensures forall row :: HoldsAll(conds', vals', row, clk) <==>
      (HoldsAll(conds, vals, row, clk) && InDashboardWindow(q, DayOf(row.pkg.arrivedAt), clk))
  {
    conds', vals', idx' := conds, vals, idx;
    if q.startDate.Some? {
      conds', vals', idx' := PushRange(conds, vals, idx, q.startDate.value, q.endDate, clk);
    } else if q.period == Some("last7") {
      conds', vals' := Push(conds, vals, ArrivedWithin(6), [], clk);
    } else if q.period == Some("last30") {
      conds', vals' := Push(conds, vals, ArrivedWithin(29), [], clk);
    } else if q.period == Some("month") {
      conds', vals' := Push(conds, vals, ArrivedThisMonth, [], clk);
    } else if q.date.Some? {
      conds', vals' := Push(conds, vals, ArrivedOn(idx), [Day(q.date.value)], clk);
      idx' := idx + 1;
    } else {
      conds', vals' := Push(conds, vals, ArrivedToday, [], clk);
    }
  }

  /** The `where` clause GET /dashboard builds: the date window, then status, then unit. */
  method BuildDashboardFilter(q: DashboardQuery, clk: Clock) returns (conds: seq<Cond>, vals: seq<Param>)
    ensures Numbered(conds, vals)
    ensures forall row :: HoldsAll(conds, vals, row, clk) <==> DashboardWants(q, row, clk)
  {
    conds, vals := [], [];
    var idx := 1;
    conds, vals, idx := PushDashboardWindow(conds, vals, idx, q, clk);
    conds, vals, idx := PushStatus(conds, vals, idx, q.status, clk);
    conds, vals, idx := PushUnit(conds, vals, idx, q.unit, clk);
  }

  /** The packages the dashboard list may show. */
  function DashboardMatches(db: Db, q: DashboardQuery, clk: Clock): set<PackageId>
  {
    set id | id in db.packages && UnitOf(db, db.packages[id].tenant).Some? && DashboardWants(q, PackageRow(db, id), clk)
  }

  /** GET /dashboard, its package list: the newest 50 matching packages by arrival. */
  method Dashboard(store: Store, q: DashboardQuery, clk: Clock) returns (reply: Reply, rows: seq<PackageId>)
    ensures reply.code == 200
    ensures IsTop(rows, DashboardMatches(store.State(), q, clk), ArrivalKey(store.State()), 50)
  {
    var conds, vals := BuildDashboardFilter(q, clk);
    var db := store.State();
    var cands := JoinedPackages(db, conds, vals, clk);
    assert cands == DashboardMatches(db, q, clk);
    rows := SelectTop(cands, ArrivalKey(db), 50);
    reply := Reply(200, "");
  }

  /** The body of POST /packages. */
  datatype NewPackage = NewPackage(
    tracking: Option<string>,
    carrier: Option<string>,
    tenant: Option<int>,
    status: Option<string>,
    note: Option<string>,
    arrivedAt: Option<int>)

  /** `status || "ARRIVED"`, for a status that passed validation. */
  function EffectiveStatus(status: Option<string>): (s: Status)
    ensures Truthy(status) && ParseStatus(status.value).Some? ==> StatusName(s) == status.value
    ensures !Truthy(status) ==> s == Arrived
  {
    match Requested(status)
    case Some(s) => s
    case None => Arrived
  }

  /** The row the create handler inserts: received by the desk officer,
      empty tracking and carrier stored as null, no sender, arrival at the
      given instant or now, and never a pickup time. */
  function CreatedRow(req: NewPackage, clk: Clock): (p: Package)
    requires req.tenant.Some?
    ensures p.tenant == req.tenant.value && p.receivedBy == DeskOfficer
    ensures p.tracking == OrNull(req.tracking) && p.carrier == OrNull(req.carrier) && p.sender == None
    ensures p.arrivedAt == (if req.arrivedAt.Some? then req.arrivedAt.value else clk.now)
    ensures p.pickedUpAt == None
    ensures Unpicked(p)
  {
    Package(req.tenant.value, DeskOfficer, OrNull(req.tracking), OrNull(req.carrier), None,
            if req.arrivedAt.Some? then req.arrivedAt.value else clk.now, None, EffectiveStatus(req.status))
  }

  /** POST /packages: validation, then the package insert, then its first
      log entry, as two separate statements. The package insert fails (500,
      nothing written) when the desk officer's staff row is missing; after a
      successful insert the log insert cannot fail. */
  method CreatePackage(store: Store, req: NewPackage, clk: Clock) returns (reply: Reply, id: Option<PackageId>)
    modifies store
    ensures !TruthyId(req.tenant) ==> reply == Reply(400, "tenant_id is required")
    ensures TruthyId(req.tenant) && Truthy(req.status) && ParseStatus(req.status.value).None? ==>
      reply == Reply(400, "Invalid status")
    ensures TruthyId(req.tenant) && !(Truthy(req.status) && ParseStatus(req.status.value).None?)
            && req.tenant.value !in old(store.tenants) ==>
      reply == Reply(400, "Tenant not found")
    ensures reply.code != 201 ==> store.State() == old(store.State()) && id == None
    ensures reply.code == 500 ==> DeskOfficer !in old(store.staff)
    ensures reply.code == 201 ==>
      && reply.message == "Created" && req.tenant.Some? && id == Some(old(store.nextPackageId))
      && store.State() == Registered(old(store.State()), CreatedRow(req, clk), OrEmpty(req.note), clk.now)
    ensures reply.code == 400 ==>
      || !TruthyId(req.tenant)
      || (Truthy(req.status) && ParseStatus(req.status.value).None?)
      || (req.tenant.Some? && req.tenant.value !in old(store.tenants))
    ensures TruthyId(req.tenant) && !(Truthy(req.status) && ParseStatus(req.status.value).None?)
            && req.tenant.value in old(store.tenants) ==>
      (reply.code == 201 <==> DeskOfficer in old(store.staff))
    ensures reply.code in {201, 400, 500}
    ensures Consistent(old(store.State())) ==>
      && Consistent(store.State()) && (Audited(old(store.State())) ==> Audited(store.State()))
      && (ArrivedUnpicked(old(store.State())) ==> ArrivedUnpicked(store.State()))
      && (HistoryAgrees(old(store.State())) ==> HistoryAgrees(store.State()))
  {
    id := None;
    if !TruthyId(req.tenant) {
      return Reply(400, "tenant_id is required"), id;
    }
    if Truthy(req.status) && ParseStatus(req.status.value).None? {
      return Reply(400, "Invalid status"), id;
    }
    if req.tenant.value !in store.tenants {
      return Reply(400, "Tenant not found"), id;
    }
    ghost var db := store.State();
    var row := CreatedRow(req, clk);
    var okPackage, pkgId := store.InsertPackage(row);
    if !okPackage {
      return Reply(500, "Server error"), id;
    }
    var okLog := store.InsertLog(pkgId, DeskOfficer, row.status, OrEmpty(req.note), clk.now);
    assert okLog;
    assert Registered(db, row, OrEmpty(req.note), clk.now)
        == Logged(Inserted(db, row), db.nextPackageId, row.receivedBy, row.status, OrEmpty(req.note), clk.now);
    RegisteredSound(db, row, OrEmpty(req.note), clk.now);
    if Consistent(db) && HistoryAgrees(db) {
      RegisteredAgrees(db, row, OrEmpty(req.note), clk.now);
    }
    reply, id := Reply(201, "Created"), Some(pkgId);
  }

  /** A package fresh from creation has a history of exactly one entry, by
      the desk officer, carrying the package's status and the given note. */
  lemma CreatedHistory(db: Db, req: NewPackage, clk: Clock)
    requires Consistent(db) && req.tenant.Some?
    ensures var r := Registered(db, CreatedRow(req, clk), OrEmpty(req.note), clk.now);
      && HistoryOf(r.log, db.nextPackageId) == [LogEntry(db.nextLogId, db.nextPackageId, DeskOfficer, EffectiveStatus(req.status), OrEmpty(req.note), clk.now)]
      && r.packages[db.nextPackageId].status == EffectiveStatus(req.status)
      && r.packages[db.nextPackageId].pickedUpAt == None
  {
    RegisteredHistory(db, CreatedRow(req, clk), OrEmpty(req.note), clk.now);
  }

  /** GET /packages/:id: 404 unless the package, its tenant, room and
      building, and the staff member who received it all exist; otherwise
      the package with the note of its newest history entry ("" without one). */
  method GetPackage(store: Store, id: PackageId) returns (reply: Reply, note: string)
    ensures reply.code == 200 <==>
      id in store.packages && UnitOf(store.State(), store.packages[id].tenant).Some? && store.packages[id].receivedBy in store.staff
    ensures reply.code != 200 ==> reply == Reply(404, "Package not found")
    ensures reply.code == 200 && (forall e :: e in store.log ==> e.package != id) ==> note == ""
    ensures reply.code == 200 && (exists e :: e in store.log && e.package == id) ==>
      exists e :: Newest(store.log, id, e) && note == e.note
  {
    note := "";
    if !(id in store.packages && UnitOf(store.State(), store.packages[id].tenant).Some? && store.packages[id].receivedBy in store.staff) {
      return Reply(404, "Package not found"), note;
    }
    note := LatestNote(store.log, id);
    reply := Reply(200, "");
  }

  /** The query of GET /package-log. */
  datatype FeedQuery = FeedQuery(status: Option<string>, unit: Option<string>, date: Option<int>)

  /** Which entries the activity feed asks for, given the unit of the entry's package. */
  predicate FeedWants(q: FeedQuery, e: LogEntry, unit: string)
  {
    && (Truthy(q.status) ==> StatusName(e.status) == q.status.value)
    && (Truthy(q.unit) ==> unit == q.unit.value)
    && (q.date.Some? ==> DayOf(e.time) == q.date.value)
  }

  /** The `where` clause GET /package-log builds: status, unit, then day. */
  method BuildFeedFilter(q: FeedQuery, ghost clk: Clock) returns (conds: seq<Cond>, vals: seq<Param>)
    ensures Numbered(conds, vals)
    ensures forall row: Row :: row.entry.Some? ==> (HoldsAll(conds, vals, row, clk) <==> FeedWants(q, row.entry.value, row.unit))
  {
    conds, vals := [], [];
    var idx := 1;
    conds, vals, idx := PushEntryStatus(conds, vals, idx, q.status, clk);
    conds, vals, idx := PushUnit(conds, vals, idx, q.unit, clk);
    conds, vals, idx := PushLoggedOn(conds, vals, idx, q.date, clk);
  }

  /** The entries the activity feed may show: those whose package has a full unit join. */
  function FeedMatches(db: Db, q: FeedQuery): set<LogEntry>
  {
    set e | e in db.log && e.package in db.packages && UnitOf(db, db.packages[e.package].tenant).Some?
                        && FeedWants(q, e, EntryRow(db, e).unit)
  }

  /** GET /package-log: the newest 200 matching entries. */
  method PackageLog(store: Store, q: FeedQuery, clk: Clock) returns (reply: Reply, entries: seq<LogEntry>)
    ensures reply.code == 200
    ensures IsTop(entries, FeedMatches(store.State(), q), EntryTime, 200)
  {
    var conds, vals := BuildFeedFilter(q, clk);
    var db := store.State();
    var cands := JoinedEntries(db, conds, vals, clk);
    assert cands == FeedMatches(db, q);
    entries := SelectTop(cands, EntryTime, 200);
    reply := Reply(200, "");
  }

  /** PATCH /packages/:id: a status is required; the update sets it and the
      pickup time, then a separate statement logs it for the desk officer.
      Without that staff row the log insert fails after the update (500). */
  method PatchPackage(store: Store, id: PackageId, status: Option<string>, note: Option<string>, now: int) returns (reply: Reply)
    modifies store
    ensures reply.code == 400 <==> Requested(status).None?
    ensures reply.code == 400 ==> reply.message == "Invalid status" && store.State() == old(store.State())
    ensures reply.code == 404 ==> reply.message == "Package not found" && id !in old(store.packages) && store.State() == old(store.State())
    ensures reply.code == 200 ==>
      && reply.message == "Updated" && id in old(store.packages) && DeskOfficer in old(store.staff)
      && store.State() == Logged(Patched(old(store.State()), id, Requested(status), now), id, DeskOfficer,
                                 Requested(status).value, OrEmpty(note), now)
    ensures reply.code == 500 ==>
      id in old(store.packages) && DeskOfficer !in old(store.staff) && store.State() == Patched(old(store.State()), id, Requested(status), now)
    ensures reply.code == 200 && HistoryAgrees(old(store.State())) ==> HistoryAgrees(store.State())
    ensures reply.code in {200, 400, 404, 500}
  {
    var requested := Requested(status);
    if requested.None? {
      return Reply(400, "Invalid status");
    }
    ghost var db := store.State();
    var found, current := store.UpdatePackage(id, requested, PickupRule(requested), now);
    if !found {
      return Reply(404, "Package not found");
    }
    PickupRuleMatchesTransition(db.packages[id], requested, now);
    var ok := store.InsertLog(id, DeskOfficer, requested.value, OrEmpty(note), now);
    if !ok {
      return Reply(500, "Server error");
    }
    if HistoryAgrees(db) {
      PatchLoggedAgrees(db, id, requested, DeskOfficer, OrEmpty(note), now);
    }
    reply := Reply(200, "Updated");
  }
}
