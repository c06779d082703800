/** The admin routes that touch packages and that delete directory rows
    (backend/routes/admin.js). Every handler first runs `requireAdmin`; a
    denied caller gets the guard's reply and the store is left alone.
    Deletes run inside `begin ... commit`: a statement that fails rolls the
    whole transaction back. */
module AdminRoutes {

  import opened Prelude
  import opened Schema
  import opened Ledger
  import opened Query
  import opened Auth
  import opened Database

  /** `deleteTenantCascade`: the tenant's log entries, its packages, the
      tenant row, then its user account. Only the last statement can fail,
      and only in a state where another row shares the account. */
  method DeleteTenantCascade(store: Store, t: TenantId) returns (ok: bool)
    modifies store
    ensures ok ==> store.State() == DropTenants(old(store.State()), {t})
    ensures Consistent(old(store.State())) ==> ok
  {
    ghost var db := store.State();
    var doomed := PackagesOfTenants(store.packages, {t});
    store.DeleteLogs(PackageNotIn(doomed));
    var okPackages, _ := store.DeletePackages(doomed);
    assert okPackages;
    var okTenant, user := store.DeleteTenantRow(t);
    assert okTenant;
    assert AccountsOfTenants(db.tenants, {t}) == if t in db.tenants then {db.tenants[t].user} else {};
    if user.Some? {
      ok := store.DeleteUser(user.value);
    } else {
      ok := true;
    }
  }

  /** `deleteStaffCascade`: the entries the officer wrote, the entries of the
      packages the officer received, those packages, the staff row, then its
      user account. */
  method DeleteStaffCascade(store: Store, s: StaffId) returns (ok: bool)
    modifies store
    ensures ok ==> store.State() == DropStaff(old(store.State()), s)
    ensures Consistent(old(store.State())) ==> ok
  {
    ghost var db := store.State();
    store.DeleteLogs(StaffIsNot(s));
    var received := set id | id in store.packages && store.packages[id].receivedBy == s;
    store.DeleteLogs(PackageNotIn(received));
    var okPackages, _ := store.DeletePackages(received);
    assert okPackages;
    var okStaff, user := store.DeleteStaffRow(s);
    assert okStaff;
    if user.Some? {
      ok := store.DeleteUser(user.value);
    } else {
      ok := true;
    }
  }

  /** DELETE /tenants/:id. A tenant that does not exist still gets "Deleted". */
  method DeleteTenant(store: Store, header: Option<string>, tokens: map<string, Claims>, t: TenantId) returns (reply: Reply)
    modifies store
    ensures RequireAdmin(header, tokens).Deny? ==>
      reply == Reply(RequireAdmin(header, tokens).code, RequireAdmin(header, tokens).message) && store.State() == old(store.State())
    ensures reply.code == 200 ==> reply.message == "Deleted" && store.State() == DropTenants(old(store.State()), {t})
    ensures reply.code == 500 ==> store.State() == old(store.State()) && !Consistent(old(store.State()))
    ensures RequireAdmin(header, tokens).Pass? && Consistent(old(store.State())) ==> reply.code == 200
  {
    var gate := RequireAdmin(header, tokens);
    if gate.Deny? {
      return Reply(gate.code, gate.message);
    }
    var snap := store.State();
    var ok := DeleteTenantCascade(store, t);
    if !ok {
      store.Restore(snap);
      return Reply(500, "Server error");
    }
    reply := Reply(200, "Deleted");
  }

  /** DELETE /officers/:id. */
  method DeleteOfficer(store: Store, header: Option<string>, tokens: map<string, Claims>, s: StaffId) returns (reply: Reply)
    modifies store
    ensures RequireAdmin(header, tokens).Deny? ==>
      reply == Reply(RequireAdmin(header, tokens).code, RequireAdmin(header, tokens).message) && store.State() == old(store.State())
    ensures reply.code == 200 ==> reply.message == "Deleted" && store.State() == DropStaff(old(store.State()), s)
    ensures reply.code == 500 ==> store.State() == old(store.State()) && !Consistent(old(store.State()))
    ensures RequireAdmin(header, tokens).Pass? && Consistent(old(store.State())) ==> reply.code == 200
  {
    var gate := RequireAdmin(header, tokens);
    if gate.Deny? {
      return Reply(gate.code, gate.message);
    }
    var snap := store.State();
    var ok := DeleteStaffCascade(store, s);
    if !ok {
      store.Restore(snap);
      return Reply(500, "Server error");
    }
    reply := Reply(200, "Deleted");
  }

  /** The loop of the building and room deletes: cascade each tenant the
      select found (the ids of `ts`), stopping at the first failure. */
  method CascadeAll(store: Store, ids: seq<TenantId>, ghost ts: set<TenantId>) returns (ok: bool)
    requires forall t :: t in ts <==> t in ids
    modifies store
    ensures ok ==> store.State() == DropTenants(old(store.State()), ts)
    ensures Consistent(old(store.State())) ==> ok
  {
    ghost var snap := store.State();
    ghost var done: set<TenantId> := {};
    ok := true;
    var i := 0;
    DropTenantsNone(snap);
    while i < |ids| && ok
      invariant 0 <= i <= |ids|
      invariant forall t :: t in done <==> t in ids[..i]
      invariant ok ==> store.State() == DropTenants(snap, done)
      invariant Consistent(snap) ==> ok
    {
      ok := CascadeNext(store, snap, done, ids[i]);
      assert ids[..i + 1] == ids[..i] + [ids[i]];
      done := done + {ids[i]};
      i := i + 1;
    }
    if ok {
      assert ids[..i] == ids;
      assert forall t :: t in done <==> t in ts;
      assert done == ts;
    }
  }

  /** One turn of that loop, against the state the earlier turns produced. */
  method CascadeNext(store: Store, ghost snap: Db, ghost done: set<TenantId>, t: TenantId) returns (ok: bool)
    requires store.State() == DropTenants(snap, done)
    modifies store
    ensures ok ==> store.State() == DropTenants(snap, done + {t})
    ensures Consistent(snap) ==> ok
  {
    DropTenantsSound(snap, done);
    DropTenantsStep(snap, done, t);
    ok := DeleteTenantCascade(store, t);
  }

  /** DELETE /buildings/:id: the building's tenants one by one, its rooms,
      then the building row; 404 (rolled back) when no building row was deleted. */
  method DeleteBuilding(store: Store, header: Option<string>, tokens: map<string, Claims>, b: BuildingId) returns (reply: Reply)
    modifies store
    ensures RequireAdmin(header, tokens).Deny? ==>
      reply == Reply(RequireAdmin(header, tokens).code, RequireAdmin(header, tokens).message) && store.State() == old(store.State())
    ensures reply.code == 200 ==> reply.message == "Deleted" && b in old(store.buildings) && store.State() == DropBuilding(old(store.State()), b)
    ensures reply.code == 404 ==> reply.message == "Not found" && b !in old(store.buildings) && store.State() == old(store.State())
    ensures reply.code == 500 ==> store.State() == old(store.State()) && !Consistent(old(store.State()))
    ensures RequireAdmin(header, tokens).Pass? ==> reply.code in {200, 404, 500}
    ensures RequireAdmin(header, tokens).Pass? && Consistent(old(store.State())) ==> (reply.code == 200 <==> b in old(store.buildings))
  {
    var gate := RequireAdmin(header, tokens);
    if gate.Deny? {
      return Reply(gate.code, gate.message);
    }
    var snap := store.State();
    var ids := store.SelectTenantIds(b, None);
    assert snap.buildings == store.buildings && snap.tenants == store.tenants;
    var ok := CascadeAll(store, ids, TenantsAt(snap.tenants, b, None));
    if !ok {
      store.Restore(snap);
      return Reply(500, "Cannot delete building (in use?)");
    }
    ghost var d1 := store.State();
    var okRooms, _ := store.DeleteRooms(b, None);
    assert okRooms;
    var okBuilding, found := store.DeleteBuildingRow(b);
    assert okBuilding;
    if !found {
      store.Restore(snap);
      return Reply(404, "Not found");
    }
    assert store.rooms == set k | k in d1.rooms && k.building != b;
    reply := Reply(200, "Deleted");
  }

  /** DELETE /rooms/:buildingId/:roomNo: the room's tenants one by one, then
      the room; 404 (rolled back) when no room row was deleted. */
  method DeleteRoom(store: Store, header: Option<string>, tokens: map<string, Claims>, k: RoomKey) returns (reply: Reply)
    modifies store
    ensures RequireAdmin(header, tokens).Deny? ==>
      reply == Reply(RequireAdmin(header, tokens).code, RequireAdmin(header, tokens).message) && store.State() == old(store.State())
    ensures reply.code == 200 ==> reply.message == "Deleted" && k in old(store.rooms) && store.State() == DropRoom(old(store.State()), k)
    ensures reply.code == 404 ==> reply.message == "Not found" && k !in old(store.rooms) && store.State() == old(store.State())
    ensures reply.code == 500 ==> store.State() == old(store.State()) && !Consistent(old(store.State()))
    ensures RequireAdmin(header, tokens).Pass? ==> reply.code in {200, 404, 500}
    ensures RequireAdmin(header, tokens).Pass? && Consistent(old(store.State())) ==> (reply.code == 200 <==> k in old(store.rooms))
  {
    var gate := RequireAdmin(header, tokens);
    if gate.Deny? {
      return Reply(gate.code, gate.message);
    }
    var snap := store.State();
    var ids := store.SelectTenantIds(k.building, Some(k.roomNo));
    assert snap.rooms == store.rooms && snap.tenants == store.tenants;
    var ok := CascadeAll(store, ids, TenantsAt(snap.tenants, k.building, Some(k.roomNo)));
    if !ok {
      store.Restore(snap);
      return Reply(500, "Cannot delete room (in use?)");
    }
    ghost var d1 := store.State();
    var okRooms, deleted := store.DeleteRooms(k.building, Some(k.roomNo));
    assert okRooms;
    assert k in d1.rooms ==> k in deleted;
    assert d1.rooms == snap.rooms;
    if deleted == {} {
      store.Restore(snap);
      return Reply(404, "Not found");
    }
    assert k in deleted;
    assert deleted == {k};
    reply := Reply(200, "Deleted");
  }

  /** DELETE /packages/:id: its history, then the row; 404 (rolled back) when no row was deleted. */
  method DeletePackage(store: Store, header: Option<string>, tokens: map<string, Claims>, id: PackageId) returns (reply: Reply)
    modifies store
    ensures RequireAdmin(header, tokens).Deny? ==>
      reply == Reply(RequireAdmin(header, tokens).code, RequireAdmin(header, tokens).message) && store.State() == old(store.State())
    ensures reply.code == 200 ==> reply.message == "Deleted" && id in old(store.packages) && store.State() == DropPackage(old(store.State()), id)
    ensures reply.code == 404 ==> reply.message == "Not found" && id !in old(store.packages) && store.State() == old(store.State())
    ensures RequireAdmin(header, tokens).Pass? ==> reply.code in {200, 404}
  {
    var gate := RequireAdmin(header, tokens);
    if gate.Deny? {
      return Reply(gate.code, gate.message);
    }
    var snap := store.State();
    assert snap.packages == store.packages;
    store.DeleteLogs(PackageNotIn({id}));
    assert store.packages == snap.packages;
    var ok, deleted := store.DeletePackages({id});
    assert ok;
    assert id in snap.packages ==> id in deleted;
    if deleted == {} {
      store.Restore(snap);
      return Reply(404, "Not found");
    }
    reply := Reply(200, "Deleted");
  }

  /** POST /packages: admins are turned away from package creation. */
  method CreatePackage(header: Option<string>, tokens: map<string, Claims>) returns (reply: Reply)
    ensures RequireAdmin(header, tokens).Deny? ==> reply == Reply(RequireAdmin(header, tokens).code, RequireAdmin(header, tokens).message)
    ensures RequireAdmin(header, tokens).Pass? ==> reply == Reply(403, "Admins cannot create packages; please use officer workflow.")
  {
    var gate := RequireAdmin(header, tokens);
    if gate.Deny? {
      return Reply(gate.code, gate.message);
    }
    reply := Reply(403, "Admins cannot create packages; please use officer workflow.");
  }

  /** The request checks of PATCH /packages/:id, in the handler's order. */
  predicate PatchRejected(status: Option<string>, staffId: Option<int>)
  {
    !TruthyId(staffId) || (Truthy(status) && ParseStatus(status.value).None?)
  }

  /** PATCH /packages/:id as written: the update and the log insert are two
      separate statements without a transaction. When the log insert fails
      (the named staff member does not exist) the reply is 500 but the
      status change stays. */
  method PatchPackage(store: Store, header: Option<string>, tokens: map<string, Claims>, id: PackageId,
                      status: Option<string>, note: Option<string>, staffId: Option<int>, now: int)
    returns (reply: Reply)
    modifies store
    ensures RequireAdmin(header, tokens).Deny? ==>
      reply == Reply(RequireAdmin(header, tokens).code, RequireAdmin(header, tokens).message) && store.State() == old(store.State())
    ensures RequireAdmin(header, tokens).Pass? ==> (reply.code == 400 <==> PatchRejected(status, staffId))
    ensures reply.code == 400 ==> store.State() == old(store.State())
    ensures reply.code == 404 ==> reply.message == "Not found" && id !in old(store.packages) && store.State() == old(store.State())
    ensures reply.code == 200 ==>
      && reply.message == "Updated" && id in old(store.packages) && staffId.Some? && staffId.value in old(store.staff)
      && store.State() == Logged(Patched(old(store.State()), id, Requested(status), now), id, staffId.value,
                                 Transition(old(store.packages)[id], Requested(status), now).status, OrEmpty(note), now)
    ensures reply.code == 500 ==>
      && id in old(store.packages) && staffId.Some? && staffId.value !in old(store.staff)
      && store.State() == Patched(old(store.State()), id, Requested(status), now)
    ensures RequireAdmin(header, tokens).Pass? ==> reply.code in {200, 400, 404, 500}
  {
    var gate := RequireAdmin(header, tokens);
    if gate.Deny? {
      return Reply(gate.code, gate.message);
    }
    if !TruthyId(staffId) {
      return Reply(400, "staff_id required for logging");
    }
    if Truthy(status) && ParseStatus(status.value).None? {
      return Reply(400, "Invalid status");
    }
    var requested := Requested(status);
    ghost var before := store.packages;
    var found, current := store.UpdatePackage(id, requested, PickupRule(requested), now);
    if !found {
      return Reply(404, "Not found");
    }
    PickupRuleMatchesTransition(before[id], requested, now);
    var ok := store.InsertLog(id, staffId.value, current, OrEmpty(note), now);
    if !ok {
      return Reply(500, "Server error");
    }
    reply := Reply(200, "Updated");
  }

  /** PATCH /packages/:id as evidently intended: the log insert belongs to
      the same unit of work as the update, so a failing insert rolls the
      update back. The row and its history then always agree. */
  method PatchPackageAtomic(store: Store, header: Option<string>, tokens: map<string, Claims>, id: PackageId,
                            status: Option<string>, note: Option<string>, staffId: Option<int>, now: int)
    returns (reply: Reply)
    modifies store
    ensures RequireAdmin(header, tokens).Deny? ==>
      reply == Reply(RequireAdmin(header, tokens).code, RequireAdmin(header, tokens).message) && store.State() == old(store.State())
    ensures RequireAdmin(header, tokens).Pass? ==> (reply.code == 400 <==> PatchRejected(status, staffId))
    ensures reply.code != 200 ==> store.State() == old(store.State())
    ensures reply.code == 404 ==> reply.message == "Not found" && id !in old(store.packages)
    ensures reply.code == 500 ==> id in old(store.packages) && staffId.Some? && staffId.value !in old(store.staff)
    ensures reply.code == 200 ==>
      && reply.message == "Updated" && id in old(store.packages) && staffId.Some? && staffId.value in old(store.staff)
      && store.State() == Logged(Patched(old(store.State()), id, Requested(status), now), id, staffId.value,
                                 Transition(old(store.packages)[id], Requested(status), now).status, OrEmpty(note), now)
    ensures HistoryAgrees(old(store.State())) ==> HistoryAgrees(store.State())
    ensures RequireAdmin(header, tokens).Pass? ==> reply.code in {200, 400, 404, 500}
  {
    var gate := RequireAdmin(header, tokens);
    if gate.Deny? {
      return Reply(gate.code, gate.message);
    }
    if !TruthyId(staffId) {
      return Reply(400, "staff_id required for logging");
    }
    if Truthy(status) && ParseStatus(status.value).None? {
      return Reply(400, "Invalid status");
    }
    var snap := store.State();
    var requested := Requested(status);
    var found, current := store.UpdatePackage(id, requested, PickupRule(requested), now);
    if !found {
      return Reply(404, "Not found");
    }
    PickupRuleMatchesTransition(snap.packages[id], requested, now);
    var ok := store.InsertLog(id, staffId.value, current, OrEmpty(note), now);
    if !ok {
      store.Restore(snap);
      return Reply(500, "Server error");
    }
    if HistoryAgrees(snap) {
      PatchLoggedAgrees(snap, id, requested, staffId.value, OrEmpty(note), now);
    }
    reply := Reply(200, "Updated");
  }

  /** A small consistent state: one building, room, tenant and officer, and
      one ARRIVED package whose history is its creation entry. */
  function SampleDb(): (db: Db)
    ensures 1 in db.packages && db.packages[1].status == Arrived && 999 !in db.staff
  {
    Db(map[1 := Package(1, 1, None, None, None, 0, None, Arrived)],
       [LogEntry(1, 1, 1, Arrived, "", 0)],
       map[1 := Tenant(1, 1, "101", "Tenant", None, None)],
       map[1 := Staff(2, "Officer")],
       map[1 := User("tenant", "TENANT"), 2 := User("officer", "OFFICER")],
       {RoomKey(1, "101")},
       map[1 := Building("A", None)],
       2, 2)
  }

  /** The sample package's history is its creation entry. */
  lemma SampleHistory()
    ensures HistoryOf(SampleDb().log, 1) == [LogEntry(1, 1, 1, Arrived, "", 0)]
  {
    var e := LogEntry(1, 1, 1, Arrived, "", 0);
    assert SampleDb().log == [e];
    assert Keeps(PackageIs(1), e);
    assert SampleDb().log[1..] == [];
  }

  /** The sample state satisfies every invariant the corrected handler keeps. */
  lemma SampleSound()
    ensures Consistent(SampleDb()) && Audited(SampleDb()) && HistoryAgrees(SampleDb())
  {
    SampleLinked();
    SampleUnshared();
    SampleHistory();
    assert LogEntry(1, 1, 1, Arrived, "", 0) in SampleDb().log;
  }

  lemma SampleLinked()
    ensures PackagesLinked(SampleDb()) && LogLinked(SampleDb()) && DirectoryLinked(SampleDb())
  {
    var db := SampleDb();
    assert db.log == [LogEntry(1, 1, 1, Arrived, "", 0)];
  }

  lemma SampleUnshared()
    ensures AccountsUnshared(SampleDb())
  {
    var db := SampleDb();
    assert db.tenants.Keys == {1} && db.staff.Keys == {1};
  }

  /** The as-written PATCH with `staff_id` 999 on that state marks the
      package PICKED_UP, answers 500, and writes no entry: the row says
      PICKED_UP while its newest history entry still says ARRIVED. */
  lemma PartialPatchDisagrees()
    ensures Consistent(SampleDb()) && Audited(SampleDb()) && HistoryAgrees(SampleDb())
    ensures !HistoryAgrees(Patched(SampleDb(), 1, Some(PickedUp), 100))
  {
    SampleSound();
    SampleHistory();
    var r := Patched(SampleDb(), 1, Some(PickedUp), 100);
    assert r.log == SampleDb().log;
    assert r.packages[1].status == PickedUp;
    assert !EndsWith(HistoryOf(r.log, 1), r.packages[1].status);
  }

  /** The query of GET /packages. A start date selects a date range (its end
      defaulting to today); without one the period selects the last 7 or 30
      days or the current month; an end date without a start date is ignored. */
  datatype ListQuery = ListQuery(status: Option<string>, period: Option<string>, startDate: Option<int>, endDate: Option<int>)

  /** The arrival-day window of GET /packages: a start date's range first,
      then the period; no window otherwise. */
  predicate InListWindow(q: ListQuery, d: int, clk: Clock)
  {
    if q.startDate.Some? then InRange(q.startDate.value, q.endDate, d, clk)
    else if q.period == Some("last7") then d >= Today(clk) - 6
    else if q.period == Some("last30") then d >= Today(clk) - 29
    else if q.period == Some("month") then MonthOf(d) == MonthOf(Today(clk))
    else true
  }

  /** Which joined package rows GET /packages asks for. */
  predicate ListWants(q: ListQuery, row: Row, clk: Clock)
  {
    && (Truthy(q.status) ==> StatusName(row.pkg.status) == q.status.value)
    && InListWindow(q, DayOf(row.pkg.arrivedAt), clk)
  }

  /** The date part of the GET /packages filter. */
  method PushListWindow(conds: seq<Cond>, vals: seq<Param>, idx: nat, q: ListQuery, clk: Clock)
    returns (conds': seq<Cond>, vals': seq<Param>, idx': nat)
    requires Numbered(conds, vals) && idx == |vals| + 1
    ensures Numbered(conds', vals') && idx' == |vals'| + 1
    ensures forall row :: HoldsAll(conds', vals', row, clk) <==>
      (HoldsAll(conds, vals, row, clk) && InListWindow(q, DayOf(row.pkg.arrivedAt), clk))
  {
    conds', vals', idx' := conds, vals, idx;
    if q.startDate.Some? {
      conds', vals', idx' := PushRange(conds, vals, idx, q.startDate.value, q.endDate, clk);
    } else if q.period == Some("last7") {
      conds', vals' := Push(conds, vals, ArrivedWithin(6), [], clk);
    } else if q.period == Some("last30") {
      conds', vals' := Push(conds, vals, ArrivedWithin(29), [], clk);
    } else if q.period == Some("month") {
      conds', vals' := Push(conds, vals, ArrivedThisMonth, [], clk);
    }
  }

  /** The `where` clause GET /packages builds: status first, then the date window. */
  method BuildListFilter(q: ListQuery, clk: Clock) returns (conds: seq<Cond>, vals: seq<Param>)
    ensures Numbered(conds, vals)
    ensures forall row :: HoldsAll(conds, vals, row, clk) <==> ListWants(q, row, clk)
  {
    conds, vals := [], [];
    var idx := 1;
    conds, vals, idx := PushStatus(conds, vals, idx, q.status, clk);
    conds, vals, idx := PushListWindow(conds, vals, idx, q, clk);
  }

  /** The packages GET /packages may return: those with a full unit join that the query wants. */
  function ListMatches(db: Db, q: ListQuery, clk: Clock): set<PackageId>
  {
    set id | id in db.packages && UnitOf(db, db.packages[id].tenant).Some? && ListWants(q, PackageRow(db, id), clk)
  }

  /** GET /packages: the newest 300 matching packages by arrival. */
  method ListPackages(store: Store, header: Option<string>, tokens: map<string, Claims>, q: ListQuery, clk: Clock)
    returns (reply: Reply, rows: seq<PackageId>)
    ensures RequireAdmin(header, tokens).Deny? ==>
      reply == Reply(RequireAdmin(header, tokens).code, RequireAdmin(header, tokens).message) && rows == []
    ensures RequireAdmin(header, tokens).Pass? ==>
      reply.code == 200 && IsTop(rows, ListMatches(store.State(), q, clk), ArrivalKey(store.State()), 300)
  {
    var gate := RequireAdmin(header, tokens);
    if gate.Deny? {
      return Reply(gate.code, gate.message), [];
    }
    var conds, vals := BuildListFilter(q, clk);
    var db := store.State();
    var cands := JoinedPackages(db, conds, vals, clk);
    assert cands == ListMatches(db, q, clk);
    rows := SelectTop(cands, ArrivalKey(db), 300);
    reply := Reply(200, "");
  }

  /** GET /packages/:id: 404 unless the package and its tenant, room and
      building rows exist; otherwise the package with the note of its newest
      history entry ("" without one). */
  method GetPackage(store: Store, header: Option<string>, tokens: map<string, Claims>, id: PackageId)
    returns (reply: Reply, note: string)
    ensures RequireAdmin(header, tokens).Deny? ==>
      reply == Reply(RequireAdmin(header, tokens).code, RequireAdmin(header, tokens).message)
    ensures RequireAdmin(header, tokens).Pass? ==>
      (reply.code == 200 <==> id in store.packages && UnitOf(store.State(), store.packages[id].tenant).Some?)
    ensures RequireAdmin(header, tokens).Pass? && reply.code != 200 ==> reply == Reply(404, "Not found")
    ensures reply.code == 200 && (forall e :: e in store.log ==> e.package != id) ==> note == ""
    ensures reply.code == 200 && (exists e :: e in store.log && e.package == id) ==>
      exists e :: Newest(store.log, id, e) && note == e.note
  {
    note := "";
    var gate := RequireAdmin(header, tokens);
    if gate.Deny? {
      return Reply(gate.code, gate.message), note;
    }
    if !(id in store.packages && UnitOf(store.State(), store.packages[id].tenant).Some?) {
      return Reply(404, "Not found"), note;
    }
    note := LatestNote(store.log, id);
    reply := Reply(200, "");
  }

  /** The `where` clause GET /package-log builds. */
  method BuildFeedFilter(status: Option<string>, ghost clk: Clock) returns (conds: seq<Cond>, vals: seq<Param>)
    ensures Numbered(conds, vals)
    ensures forall row :: HoldsAll(conds, vals, row, clk) <==>
      (Truthy(status) ==> row.entry.Some? && StatusName(row.entry.value.status) == status.value)
  {
    conds, vals := [], [];
    var idx := 1;
    conds, vals, idx := PushEntryStatus(conds, vals, idx, status, clk);
  }

  /** The entries GET /package-log may return: those whose package has a
      full unit join, with the requested status if one was given. */
  function FeedMatches(db: Db, status: Option<string>): set<LogEntry>
  {
    set e | e in db.log && e.package in db.packages && UnitOf(db, db.packages[e.package].tenant).Some?
                        && (Truthy(status) ==> StatusName(e.status) == status.value)
  }

  /** GET /package-log: the newest 400 matching entries. */
  method PackageLog(store: Store, header: Option<string>, tokens: map<string, Claims>, status: Option<string>, clk: Clock)
    returns (reply: Reply, entries: seq<LogEntry>)
    ensures RequireAdmin(header, tokens).Deny? ==>
      reply == Reply(RequireAdmin(header, tokens).code, RequireAdmin(header, tokens).message) && entries == []
    ensures RequireAdmin(header, tokens).Pass? ==>
      reply.code == 200 && IsTop(entries, FeedMatches(store.State(), status), EntryTime, 400)
  {
    var gate := RequireAdmin(header, tokens);
    if gate.Deny? {
      return Reply(gate.code, gate.message), [];
    }
    var conds, vals := BuildFeedFilter(status, clk);
    var db := store.State();
    var cands := JoinedEntries(db, conds, vals, clk);
    assert cands == FeedMatches(db, status);
    entries := SelectTop(cands, EntryTime, 400);
    reply := Reply(200, "");
  }
}
