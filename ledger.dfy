/** What each write path does to a whole database state, as functions on
    `Db` values. The route handlers change the store statement by statement;
    their postconditions tie the final store to these functions, and the
    invariants the write paths keep (`Consistent`: no orphan row;
    `Audited`: the creation entry survives; `ArrivedUnpicked`: an ARRIVED
    package has no pickup time; `HistoryAgrees`: the newest entry records
    the current status) are proved about them here once. */
module Ledger {

  import opened Prelude
  import opened Schema

  /** The pickup-time column after a status update: PICKED_UP stamps `now`,
      ARRIVED clears it, RETURNED and an omitted status leave it alone. */
  datatype PickupSql = KeepColumn | StampNow | SetNull

  function PickupAfter(rule: PickupSql, prev: Option<int>, now: int): Option<int>
  {
    match rule
    case KeepColumn => prev
    case StampNow => Some(now)
    case SetNull => None
  }

  /** The pickup-time expression PATCH puts in its update: `now()` for
      PICKED_UP, `null` for ARRIVED, the column itself otherwise (and
      whenever no status was sent). */
  function PickupRule(requested: Option<Status>): (rule: PickupSql)
    ensures rule == StampNow <==> requested == Some(PickedUp)
    ensures rule == SetNull <==> requested == Some(Arrived)
  {
    match requested
    case Some(PickedUp) => StampNow
    case Some(Arrived) => SetNull
    case _ => KeepColumn
  }

  /** The update statement with that rule does to the row exactly what the
      status policy `Transition` prescribes. */
  lemma PickupRuleMatchesTransition(p: Package, requested: Option<Status>, now: int)
    ensures p.(status := if requested.Some? then requested.value else p.status,
               pickedUpAt := PickupAfter(PickupRule(requested), p.pickedUpAt, now))
         == Transition(p, requested, now)
  {
  }

  /** The package row after `update package set current_status = coalesce($1, current_status),
      picked_up_at = ...` with the pickup rule both PATCH handlers choose. */
  function Transition(p: Package, requested: Option<Status>, now: int): (q: Package)
    ensures q == p.(status := q.status, pickedUpAt := q.pickedUpAt)
    ensures Unpicked(p) ==> Unpicked(q)
    ensures requested.Some? ==> Unpicked(p) || requested.value != Returned ==> Unpicked(q)
  {
    match requested
    case None => p
    case Some(PickedUp) => p.(status := PickedUp, pickedUpAt := Some(now))
    case Some(Arrived) => p.(status := Arrived, pickedUpAt := None)
    case Some(Returned) => p.(status := Returned)
  }

  /** The entries of every package other than `x`'s are untouched by appending `x`. */
  lemma HistoryAfterAppend(log: seq<LogEntry>, x: LogEntry)
    ensures HistoryOf(log + [x], x.package) == HistoryOf(log, x.package) + [x]
    ensures forall other :: other != x.package ==> HistoryOf(log + [x], other) == HistoryOf(log, other)
  {
    KeepLogsAppend(log, x, PackageIs(x.package));
    forall other | other != x.package
      ensures HistoryOf(log + [x], other) == HistoryOf(log, other)
    {
      KeepLogsAppend(log, x, PackageIs(other));
    }
  }

  /** A log with no entry for `id` has an empty history for it. */
  lemma {:induction false} NoHistory(log: seq<LogEntry>, id: PackageId)
    requires forall e :: e in log ==> e.package != id
    ensures HistoryOf(log, id) == []
  {
    if log != [] {
      assert log[0] in log;
      assert forall e :: e in log[1..] ==> e in log;
      NoHistory(log[1..], id);
    }
  }

  /** Audited carries over to a state whose packages are some of the old ones,
      received by the same staff, when every creation-style entry of a
      surviving package survives too. */
  lemma AuditedCarried(db: Db, r: Db)
    requires Audited(db)
    requires forall id :: id in r.packages ==> id in db.packages && r.packages[id].receivedBy == db.packages[id].receivedBy
    requires forall e :: e in db.log && e.package in r.packages && e.staff == db.packages[e.package].receivedBy ==> e in r.log
    ensures Audited(r)
  {
    forall id | id in r.packages
      ensures exists x :: x in r.log && x.package == id && x.staff == r.packages[id].receivedBy
    {
      var x :| x in db.log && x.package == id && x.staff == db.packages[id].receivedBy;
      assert x in r.log;
    }
  }

  /** `insert into package_status_log (...) values (...)`: one entry appended,
      stamped with the next log id and the store's clock; only that package's
      history grows. */
  function Logged(db: Db, id: PackageId, staff: StaffId, status: Status, note: string, now: int): (r: Db)
    ensures r == db.(log := r.log, nextLogId := db.nextLogId + 1)
    ensures r.log == db.log + [LogEntry(db.nextLogId, id, staff, status, note, now)]
    ensures HistoryOf(r.log, id) == HistoryOf(db.log, id) + [LogEntry(db.nextLogId, id, staff, status, note, now)]
    ensures forall other :: other != id ==> HistoryOf(r.log, other) == HistoryOf(db.log, other)
  {
    var e := LogEntry(db.nextLogId, id, staff, status, note, now);
    HistoryAfterAppend(db.log, e);
    db.(log := db.log + [e], nextLogId := db.nextLogId + 1)
  }

  /** An entry for an existing package by an existing staff member keeps the state consistent. */
  lemma LoggedSound(db: Db, id: PackageId, staff: StaffId, status: Status, note: string, now: int)
    ensures Consistent(db) && id in db.packages && staff in db.staff ==> Consistent(Logged(db, id, staff, status, note, now))
    ensures Audited(db) ==> Audited(Logged(db, id, staff, status, note, now))
    ensures ArrivedUnpicked(db) ==> ArrivedUnpicked(Logged(db, id, staff, status, note, now))
  {
    var r := Logged(db, id, staff, status, note, now);
    if Audited(db) {
      AuditedCarried(db, r);
    }
    if Consistent(db) && id in db.packages && staff in db.staff {
      var e := r.log[|r.log| - 1];
      assert forall i :: 0 <= i < |db.log| ==> db.log[i] in db.log;
      assert IdsIncreasing(r.log);
    }
  }

  /** `insert into package (...) returning package_id`: the row under the next package id. */
  function Inserted(db: Db, p: Package): (r: Db)
    ensures r == db.(packages := r.packages, nextPackageId := db.nextPackageId + 1)
    ensures r.packages == db.packages[db.nextPackageId := p]
    ensures Consistent(db) ==> db.nextPackageId !in db.packages
  {
    db.(packages := db.packages[db.nextPackageId := p], nextPackageId := db.nextPackageId + 1)
  }

  /** Package creation: the row, then its first history entry by the same
      staff member, with the same status. */
  function Registered(db: Db, p: Package, note: string, now: int): (r: Db)
    ensures r == db.(packages := r.packages, log := r.log,
                     nextPackageId := db.nextPackageId + 1, nextLogId := db.nextLogId + 1)
    ensures r.packages == db.packages[db.nextPackageId := p]
    ensures Consistent(db) ==> db.nextPackageId !in db.packages
    ensures forall other :: other != db.nextPackageId ==> HistoryOf(r.log, other) == HistoryOf(db.log, other)
  {
    Logged(Inserted(db, p), db.nextPackageId, p.receivedBy, p.status, note, now)
  }

  /** In a consistent state the new package's whole history is its creation entry. */
  lemma RegisteredHistory(db: Db, p: Package, note: string, now: int)
    requires Consistent(db)
    ensures HistoryOf(Registered(db, p, note, now).log, db.nextPackageId)
         == [LogEntry(db.nextLogId, db.nextPackageId, p.receivedBy, p.status, note, now)]
  {
    var id := db.nextPackageId;
    NoHistory(db.log, id);
    HistoryAfterAppend(db.log, LogEntry(db.nextLogId, id, p.receivedBy, p.status, note, now));
  }

  /** Creation for an existing tenant by an existing staff member keeps the
      state consistent and audited; an ARRIVED row without pickup time keeps
      ArrivedUnpicked. */
  lemma RegisteredSound(db: Db, p: Package, note: string, now: int)
    ensures Consistent(db) && p.tenant in db.tenants && p.receivedBy in db.staff ==> Consistent(Registered(db, p, note, now))
    ensures Audited(db) ==> Audited(Registered(db, p, note, now))
    ensures ArrivedUnpicked(db) && Unpicked(p) ==> ArrivedUnpicked(Registered(db, p, note, now))
  {
    var id := db.nextPackageId;
    var d1 := Inserted(db, p);
    var r := Registered(db, p, note, now);
    assert r == Logged(d1, id, p.receivedBy, p.status, note, now);
    InsertedSound(db, p);
    LoggedSound(d1, id, p.receivedBy, p.status, note, now);
    if Audited(db) {
      RegisteredAudited(db, p, note, now);
    }
  }

  lemma InsertedSound(db: Db, p: Package)
    ensures Consistent(db) && p.tenant in db.tenants && p.receivedBy in db.staff ==> Consistent(Inserted(db, p))
    ensures ArrivedUnpicked(db) && Unpicked(p) ==> ArrivedUnpicked(Inserted(db, p))
  {
  }

  lemma RegisteredAudited(db: Db, p: Package, note: string, now: int)
    requires Audited(db)
    ensures Audited(Registered(db, p, note, now))
  {
    var id := db.nextPackageId;
    var r := Registered(db, p, note, now);
    assert r.log == db.log + [LogEntry(db.nextLogId, id, p.receivedBy, p.status, note, now)];
    forall pid | pid in r.packages
      ensures exists x :: x in r.log && x.package == pid && x.staff == r.packages[pid].receivedBy
    {
      if pid == id {
        assert r.log[|r.log| - 1] in r.log;
      } else {
        var x :| x in db.log && x.package == pid && x.staff == db.packages[pid].receivedBy;
        assert x in r.log;
      }
    }
  }

  /** The update half of a PATCH: one row changes status and pickup time,
      and the three invariants survive. */
  function Patched(db: Db, id: PackageId, requested: Option<Status>, now: int): (r: Db)
    requires id in db.packages
    ensures r == db.(packages := r.packages)
    ensures r.packages == db.packages[id := Transition(db.packages[id], requested, now)]
    ensures Consistent(db) ==> Consistent(r)
    ensures Audited(db) ==> Audited(r)
    ensures ArrivedUnpicked(db) ==> ArrivedUnpicked(r)
  {
    var r := db.(packages := db.packages[id := Transition(db.packages[id], requested, now)]);
    if Audited(db) then AuditedCarried(db, r); r else r
  }

  /** Packages that belong to one of the tenants in `ts`. */
  function PackagesOfTenants(pk: map<PackageId, Package>, ts: set<TenantId>): set<PackageId>
  {
    set id | id in pk && pk[id].tenant in ts
  }

  /** Accounts behind the tenants in `ts`. */
  function AccountsOfTenants(tn: map<TenantId, Tenant>, ts: set<TenantId>): set<UserId>
  {
    set t | t in ts && t in tn :: tn[t].user
  }

  /** Filtering by `f` first changes nothing a narrower sieve `g` keeps. */
  lemma {:induction false} KeepLogsSubsumed(log: seq<LogEntry>, f: Sieve, g: Sieve)
    requires forall e :: Keeps(g, e) ==> Keeps(f, e)
    ensures KeepLogs(KeepLogs(log, f), g) == KeepLogs(log, g)
  {
    if log != [] {
      KeepLogsSubsumed(log[1..], f, g);
    }
  }

  /** `delete ... where package_id = $1` run on the log and then on the package. */
  function DropPackage(db: Db, id: PackageId): (r: Db)
    ensures r == db.(packages := r.packages, log := r.log)
    ensures r.packages == db.packages - {id}
    ensures forall e :: e in r.log <==> e in db.log && e.package != id
    ensures forall other :: other != id ==> HistoryOf(r.log, other) == HistoryOf(db.log, other)
  {
    var log := KeepLogs(db.log, PackageNotIn({id}));
    assert forall other :: other != id ==> HistoryOf(log, other) == HistoryOf(db.log, other) by {
      forall other | other != id ensures HistoryOf(log, other) == HistoryOf(db.log, other) {
        KeepLogsSubsumed(db.log, PackageNotIn({id}), PackageIs(other));
      }
    }
    db.(packages := db.packages - {id}, log := log)
  }

  lemma DropPackageSound(db: Db, id: PackageId)
    ensures Consistent(db) ==> Consistent(DropPackage(db, id))
    ensures Audited(db) ==> Audited(DropPackage(db, id))
    ensures ArrivedUnpicked(db) ==> ArrivedUnpicked(DropPackage(db, id))
  {
    if Audited(db) {
      AuditedCarried(db, DropPackage(db, id));
    }
    if Consistent(db) {
      KeepLogsIncreasing(db.log, PackageNotIn({id}));
    }
  }

  /** `deleteTenantCascade` for every tenant in `ts`: their packages' log
      entries, their packages, the tenant rows and the accounts behind them. */
  function DropTenants(db: Db, ts: set<TenantId>): (r: Db)
    ensures r == db.(packages := r.packages, log := r.log, tenants := r.tenants, users := r.users)
    ensures forall id :: id in r.packages <==> id in db.packages && db.packages[id].tenant !in ts
    ensures forall id :: id in r.packages ==> r.packages[id] == db.packages[id]
    ensures forall e :: e in r.log <==> e in db.log && e.package !in PackagesOfTenants(db.packages, ts)
    ensures forall t :: t in r.tenants <==> t in db.tenants && t !in ts
    ensures forall t :: t in r.tenants ==> r.tenants[t] == db.tenants[t]
    ensures forall u :: u in r.users <==> u in db.users && u !in AccountsOfTenants(db.tenants, ts)
  {
    var doomed := PackagesOfTenants(db.packages, ts);
    db.(packages := db.packages - doomed,
        log := KeepLogs(db.log, PackageNotIn(doomed)),
        tenants := db.tenants - ts,
        users := db.users - AccountsOfTenants(db.tenants, ts))
  }

  lemma DropTenantsSound(db: Db, ts: set<TenantId>)
    ensures Consistent(db) ==> Consistent(DropTenants(db, ts))
    ensures Audited(db) ==> Audited(DropTenants(db, ts))
    ensures ArrivedUnpicked(db) ==> ArrivedUnpicked(DropTenants(db, ts))
  {
    var r := DropTenants(db, ts);
    if Audited(db) {
      AuditedCarried(db, r);
    }
    if Consistent(db) {
      KeepLogsIncreasing(db.log, PackageNotIn(PackagesOfTenants(db.packages, ts)));
      var gone := AccountsOfTenants(db.tenants, ts);
      forall t | t in r.tenants ensures r.tenants[t].user !in gone {
        assert forall t' :: t' in ts && t' in db.tenants ==> db.tenants[t'].user != db.tenants[t].user;
      }
      forall s | s in r.staff ensures r.staff[s].user !in gone {
        assert forall t' :: t' in db.tenants ==> db.tenants[t'].user != db.staff[s].user;
      }
      assert DirectoryLinked(r);
    }
  }

  /** `deleteStaffCascade`: the member's own log entries, the entries of the
      packages they received, those packages, the staff row and its account. */
  function DropStaff(db: Db, s: StaffId): (r: Db)
    ensures r == db.(packages := r.packages, log := r.log, staff := r.staff, users := r.users)
    ensures forall id :: id in r.packages <==> id in db.packages && db.packages[id].receivedBy != s
    ensures forall id :: id in r.packages ==> r.packages[id] == db.packages[id]
    ensures forall e :: e in r.log <==>
      e in db.log && e.staff != s && !(e.package in db.packages && db.packages[e.package].receivedBy == s)
    ensures forall x :: x in r.staff <==> x in db.staff && x != s
    ensures forall x :: x in r.staff ==> r.staff[x] == db.staff[x]
    ensures forall u :: u in r.users <==> u in db.users && !(s in db.staff && u == db.staff[s].user)
  {
    var received := set id | id in db.packages && db.packages[id].receivedBy == s;
    var account := if s in db.staff then {db.staff[s].user} else {};
    db.(packages := db.packages - received,
        log := KeepLogs(KeepLogs(db.log, StaffIsNot(s)), PackageNotIn(received)),
        staff := db.staff - {s},
        users := db.users - account)
  }

  lemma DropStaffSound(db: Db, s: StaffId)
    ensures Consistent(db) ==> Consistent(DropStaff(db, s))
    ensures Audited(db) ==> Audited(DropStaff(db, s))
    ensures ArrivedUnpicked(db) ==> ArrivedUnpicked(DropStaff(db, s))
  {
    var r := DropStaff(db, s);
    if Audited(db) {
      AuditedCarried(db, r);
    }
    if Consistent(db) {
      var received := set id | id in db.packages && db.packages[id].receivedBy == s;
      KeepLogsIncreasing(db.log, StaffIsNot(s));
      KeepLogsIncreasing(KeepLogs(db.log, StaffIsNot(s)), PackageNotIn(received));
      assert r.log == KeepLogs(KeepLogs(db.log, StaffIsNot(s)), PackageNotIn(received));
      forall x | x in r.staff ensures r.staff[x].user in r.users {
        assert x != s;
      }
      assert DirectoryLinked(r);
    }
  }

  /** In a consistent state, cascading a tenant that does not exist changes nothing. */
  lemma DropTenantsAbsent(db: Db, t: TenantId)
    requires Consistent(db) && t !in db.tenants
    ensures DropTenants(db, {t}) == db
  {
    assert forall id :: id in db.packages ==> db.packages[id].tenant in db.tenants;
    assert forall id :: id !in PackagesOfTenants(db.packages, {t});
    assert PackagesOfTenants(db.packages, {t}) == {};
    KeepLogsAll(db.log, PackageNotIn({}));
    assert AccountsOfTenants(db.tenants, {t}) == {};
    assert db.packages - {} == db.packages;
    assert db.tenants - {t} == db.tenants;
    assert db.users - {} == db.users;
  }

  /** In a consistent state, cascading a staff member who does not exist changes nothing. */
  lemma DropStaffAbsent(db: Db, s: StaffId)
    requires Consistent(db) && s !in db.staff
    ensures DropStaff(db, s) == db
  {
    var received := set id | id in db.packages && db.packages[id].receivedBy == s;
    assert forall id :: id in db.packages ==> db.packages[id].receivedBy in db.staff;
    assert forall id :: id !in received;
    assert received == {};
    assert forall i :: 0 <= i < |db.log| ==> db.log[i] in db.log;
    KeepLogsAll(db.log, StaffIsNot(s));
    KeepLogsAll(db.log, PackageNotIn({}));
    assert db.packages - {} == db.packages;
    assert db.staff - {s} == db.staff;
    assert db.users - {} == db.users;
  }

  /** The tenants `select tenant_id from tenant where building_id = $1 [and room_no = $2]` finds. */
  function TenantsAt(tn: map<TenantId, Tenant>, b: BuildingId, room: Option<string>): set<TenantId>
  {
    set t | t in tn && tn[t].building == b && (room.None? || tn[t].roomNo == room.value)
  }

  /** The building delete: cascade every tenant in the building, then its rooms, then the building. */
  function DropBuilding(db: Db, b: BuildingId): (r: Db)
    ensures r.staff == db.staff && r.nextPackageId == db.nextPackageId && r.nextLogId == db.nextLogId
    ensures forall t :: t in r.tenants <==> t in db.tenants && db.tenants[t].building != b
    ensures forall id :: id in r.packages <==> id in db.packages && id !in PackagesOfTenants(db.packages, TenantsAt(db.tenants, b, None))
    ensures forall e :: e in r.log <==> e in db.log && e.package !in PackagesOfTenants(db.packages, TenantsAt(db.tenants, b, None))
    ensures forall k :: k in r.rooms <==> k in db.rooms && k.building != b
    ensures r.buildings == db.buildings - {b}
  {
    var d1 := DropTenants(db, TenantsAt(db.tenants, b, None));
    var rooms := set k | k in d1.rooms && k.building != b;
    d1.(rooms := rooms, buildings := d1.buildings - {b})
  }

  lemma DropBuildingSound(db: Db, b: BuildingId)
    ensures Consistent(db) ==> Consistent(DropBuilding(db, b))
    ensures Audited(db) ==> Audited(DropBuilding(db, b))
    ensures ArrivedUnpicked(db) ==> ArrivedUnpicked(DropBuilding(db, b))
  {
    var ts := TenantsAt(db.tenants, b, None);
    DropTenantsSound(db, ts);
    var d1 := DropTenants(db, ts);
    var r := DropBuilding(db, b);
    assert r == d1.(rooms := r.rooms, buildings := r.buildings);
    if Consistent(db) {
      forall t | t in d1.tenants ensures RoomKey(d1.tenants[t].building, d1.tenants[t].roomNo) in r.rooms {
        assert t !in ts;
      }
      DirectoryShrunk(d1, r);
    }
  }

  /** The room delete: cascade every tenant in the room, then the room. */
  function DropRoom(db: Db, k: RoomKey): (r: Db)
    ensures r.staff == db.staff && r.buildings == db.buildings
    ensures r.nextPackageId == db.nextPackageId && r.nextLogId == db.nextLogId
    ensures forall t :: t in r.tenants <==> t in db.tenants && RoomKey(db.tenants[t].building, db.tenants[t].roomNo) != k
    ensures forall id :: id in r.packages <==> id in db.packages && id !in PackagesOfTenants(db.packages, TenantsAt(db.tenants, k.building, Some(k.roomNo)))
    ensures forall e :: e in r.log <==> e in db.log && e.package !in PackagesOfTenants(db.packages, TenantsAt(db.tenants, k.building, Some(k.roomNo)))
    ensures r.rooms == db.rooms - {k}
  {
    var d1 := DropTenants(db, TenantsAt(db.tenants, k.building, Some(k.roomNo)));
    d1.(rooms := d1.rooms - {k})
  }

  lemma DropRoomSound(db: Db, k: RoomKey)
    ensures Consistent(db) ==> Consistent(DropRoom(db, k))
    ensures Audited(db) ==> Audited(DropRoom(db, k))
    ensures ArrivedUnpicked(db) ==> ArrivedUnpicked(DropRoom(db, k))
  {
    var ts := TenantsAt(db.tenants, k.building, Some(k.roomNo));
    DropTenantsSound(db, ts);
    var d1 := DropTenants(db, ts);
    var r := DropRoom(db, k);
    assert r == d1.(rooms := r.rooms, buildings := r.buildings);
    if Consistent(db) {
      forall t | t in d1.tenants ensures RoomKey(d1.tenants[t].building, d1.tenants[t].roomNo) in r.rooms {
        assert t !in ts;
      }
      DirectoryShrunk(d1, r);
    }
  }

  /** Dropping rooms and buildings no remaining row refers to keeps the state consistent. */
  lemma DirectoryShrunk(d: Db, r: Db)
    requires Consistent(d)
    requires r == d.(rooms := r.rooms, buildings := r.buildings)
    requires r.rooms <= d.rooms
    requires forall t :: t in d.tenants ==> RoomKey(d.tenants[t].building, d.tenants[t].roomNo) in r.rooms
    requires forall k :: k in r.rooms ==> k.building in r.buildings
    ensures Consistent(r)
  {
  }

  /** Cascading one more tenant after a set of them is the same as cascading
      the enlarged set: the order of the building/room loop does not matter. */
  lemma DropTenantsStep(db: Db, ts: set<TenantId>, t: TenantId)
    ensures DropTenants(DropTenants(db, ts), {t}) == DropTenants(db, ts + {t})
  {
    StepPackages(db, ts, t);
    StepLog(db, ts, t);
    StepTenants(db, ts, t);
  }

  lemma StepPackages(db: Db, ts: set<TenantId>, t: TenantId)
    ensures DropTenants(DropTenants(db, ts), {t}).packages == DropTenants(db, ts + {t}).packages
  {
    var a := PackagesOfTenants(db.packages, ts);
    var d1 := DropTenants(db, ts);
    assert d1.packages == db.packages - a;
    var b := PackagesOfTenants(d1.packages, {t});
    PackagesOfTenantsStep(db.packages, ts, t);
    assert db.packages - a - b == db.packages - (a + b);
  }

  lemma StepLog(db: Db, ts: set<TenantId>, t: TenantId)
    ensures DropTenants(DropTenants(db, ts), {t}).log == DropTenants(db, ts + {t}).log
  {
    var a := PackagesOfTenants(db.packages, ts);
    var d1 := DropTenants(db, ts);
    assert d1.packages == db.packages - a;
    assert d1.log == KeepLogs(db.log, PackageNotIn(a));
    var b := PackagesOfTenants(d1.packages, {t});
    PackagesOfTenantsStep(db.packages, ts, t);
    KeepLogsNotInTwice(db.log, a, b);
  }

  lemma StepTenants(db: Db, ts: set<TenantId>, t: TenantId)
    ensures DropTenants(DropTenants(db, ts), {t}).tenants == DropTenants(db, ts + {t}).tenants
    ensures DropTenants(DropTenants(db, ts), {t}).users == DropTenants(db, ts + {t}).users
  {
    var d1 := DropTenants(db, ts);
    assert d1.tenants == db.tenants - ts;
    var ua := AccountsOfTenants(db.tenants, ts);
    assert d1.users == db.users - ua;
    var ub := AccountsOfTenants(d1.tenants, {t});
    AccountsOfTenantsStep(db.tenants, ts, t);
    assert db.tenants - ts - {t} == db.tenants - (ts + {t});
    assert db.users - ua - ub == db.users - (ua + ub);
  }

  lemma PackagesOfTenantsStep(pk: map<PackageId, Package>, ts: set<TenantId>, t: TenantId)
    ensures PackagesOfTenants(pk, ts) + PackagesOfTenants(pk - PackagesOfTenants(pk, ts), {t})
         == PackagesOfTenants(pk, ts + {t})
  {
  }

  lemma AccountsOfTenantsStep(tn: map<TenantId, Tenant>, ts: set<TenantId>, t: TenantId)
    ensures AccountsOfTenants(tn, ts) + AccountsOfTenants(tn - ts, {t}) == AccountsOfTenants(tn, ts + {t})
  {
  }

  /** A history that is not empty and whose newest entry, in insertion order, records `status`. */
  predicate EndsWith(h: seq<LogEntry>, status: Status)
  {
    |h| > 0 && h[|h| - 1].status == status
  }

  /** The package row and its history tell the same story: every package's
      newest entry records the status the row holds. */
  predicate HistoryAgrees(db: Db)
  {
    forall id :: id in db.packages ==> EndsWith(HistoryOf(db.log, id), db.packages[id].status)
  }

  lemma AgreesCarried(db: Db, r: Db)
    requires HistoryAgrees(db)
    requires forall id :: id in r.packages ==>
      id in db.packages && r.packages[id].status == db.packages[id].status && HistoryOf(r.log, id) == HistoryOf(db.log, id)
    ensures HistoryAgrees(r)
  {
  }

  /** Cascading tenants leaves the history of every surviving package as it was. */
  lemma DropTenantsHistories(db: Db, ts: set<TenantId>)
    ensures forall id :: id in DropTenants(db, ts).packages ==> HistoryOf(DropTenants(db, ts).log, id) == HistoryOf(db.log, id)
  {
    var gone := PackagesOfTenants(db.packages, ts);
    var r := DropTenants(db, ts);
    assert r.log == KeepLogs(db.log, PackageNotIn(gone));
    forall id | id in r.packages ensures HistoryOf(r.log, id) == HistoryOf(db.log, id) {
      assert id !in gone;
      KeepLogsSubsumed(db.log, PackageNotIn(gone), PackageIs(id));
    }
  }

  /** A new package starts with a history of one entry carrying its status. */
  lemma RegisteredAgrees(db: Db, p: Package, note: string, now: int)
    requires Consistent(db) && HistoryAgrees(db)
    ensures HistoryAgrees(Registered(db, p, note, now))
  {
    var r := Registered(db, p, note, now);
    forall id | id in r.packages ensures EndsWith(HistoryOf(r.log, id), r.packages[id].status) {
      if id != db.nextPackageId {
        assert HistoryOf(r.log, id) == HistoryOf(db.log, id);
      }
    }
  }

  /** A complete PATCH (the update, then the entry recording the resulting
      status) keeps the row and its history in agreement. */
  lemma PatchLoggedAgrees(db: Db, id: PackageId, requested: Option<Status>, staff: StaffId, note: string, now: int)
    requires id in db.packages && HistoryAgrees(db)
    ensures HistoryAgrees(Logged(Patched(db, id, requested, now), id, staff, Transition(db.packages[id], requested, now).status, note, now))
  {
    var d1 := Patched(db, id, requested, now);
    var r := Logged(d1, id, staff, Transition(db.packages[id], requested, now).status, note, now);
    forall x | x in r.packages ensures EndsWith(HistoryOf(r.log, x), r.packages[x].status) {
      if x != id {
        assert HistoryOf(r.log, x) == HistoryOf(db.log, x);
      }
    }
  }

  lemma DropPackageAgrees(db: Db, id: PackageId)
    requires HistoryAgrees(db)
    ensures HistoryAgrees(DropPackage(db, id))
  {
    AgreesCarried(db, DropPackage(db, id));
  }

  lemma DropTenantsAgrees(db: Db, ts: set<TenantId>)
    requires HistoryAgrees(db)
    ensures HistoryAgrees(DropTenants(db, ts))
  {
    DropTenantsHistories(db, ts);
    AgreesCarried(db, DropTenants(db, ts));
  }

  /** Cascading no tenant changes nothing. */
  lemma DropTenantsNone(db: Db)
    ensures DropTenants(db, {}) == db
  {
    KeepLogsAll(db.log, PackageNotIn({}));
    assert PackagesOfTenants(db.packages, {}) == {};
    assert AccountsOfTenants(db.tenants, {}) == {};
    assert db.packages - {} == db.packages;
    assert db.tenants - {} == db.tenants;
    assert db.users - {} == db.users;
  }

  /** The profile update: tenant `t`'s phone and email become the given
      values; nothing else changes. */
  function Contacted(db: Db, t: TenantId, phone: Option<string>, email: Option<string>): (r: Db)
    requires t in db.tenants
    ensures r.tenants.Keys == db.tenants.Keys
    ensures r.tenants[t].phone == phone && r.tenants[t].email == email
    ensures forall u :: u in r.tenants && u != t ==> r.tenants[u] == db.tenants[u]
  {
    db.(tenants := db.tenants[t := db.tenants[t].(phone := phone, email := email)])
  }

  /** Contact details take part in no invariant: the update keeps them all. */
  lemma ContactedSound(db: Db, t: TenantId, phone: Option<string>, email: Option<string>)
    requires t in db.tenants
    ensures Consistent(db) ==> Consistent(Contacted(db, t, phone, email))
    ensures Audited(db) ==> Audited(Contacted(db, t, phone, email))
    ensures ArrivedUnpicked(db) ==> ArrivedUnpicked(Contacted(db, t, phone, email))
    ensures HistoryAgrees(db) ==> HistoryAgrees(Contacted(db, t, phone, email))
  {
    var r := Contacted(db, t, phone, email);
    if Consistent(db) {
      assert DirectoryLinked(r);
      assert AccountsUnshared(r);
    }
  }
}
