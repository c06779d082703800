/** The database the handlers talk to, as an object whose tables are fields.
    Each method is one SQL statement: it either applies completely or, when
    it would break a foreign key, fails (the `ok` result) and changes
    nothing. Transactions are a snapshot `State()` taken at `begin` and
    handed back to `Restore` on `rollback`. */
module Database {

  import opened Prelude
  import opened Schema
  import opened Ledger

  class Store {
    var packages: map<PackageId, Package>
    var log: seq<LogEntry>
    var tenants: map<TenantId, Tenant>
    var staff: map<StaffId, Staff>
    var users: map<UserId, User>
    var rooms: set<RoomKey>
    var buildings: map<BuildingId, Building>
    var nextPackageId: int
    var nextLogId: int

    /** The whole database as a value. */
    function State(): Db
      reads this
    {
      Db(packages, log, tenants, staff, users, rooms, buildings, nextPackageId, nextLogId)
    }

    constructor (d: Db)
      ensures State() == d
    {
      packages, log, tenants, staff, users := d.packages, d.log, d.tenants, d.staff, d.users;
      rooms, buildings, nextPackageId, nextLogId := d.rooms, d.buildings, d.nextPackageId, d.nextLogId;
    }

    /** `rollback`: every table back to the snapshot. */
    method Restore(d: Db)
      modifies this
      ensures State() == d
    {
      packages, log, tenants, staff, users := d.packages, d.log, d.tenants, d.staff, d.users;
      rooms, buildings, nextPackageId, nextLogId := d.rooms, d.buildings, d.nextPackageId, d.nextLogId;
    }

    /** `insert into package (...) values (...) returning package_id`; fails
        when the tenant or the receiving staff member does not exist. */
    method InsertPackage(p: Package) returns (ok: bool, id: PackageId)
      modifies this
      ensures ok <==> p.tenant in old(tenants) && p.receivedBy in old(staff)
      ensures ok ==> id == old(nextPackageId) && State() == Inserted(old(State()), p)
      ensures !ok ==> State() == old(State())
    {
      ok := p.tenant in tenants && p.receivedBy in staff;
      id := nextPackageId;
      if ok {
        packages := packages[id := p];
        nextPackageId := nextPackageId + 1;
      }
    }

    /** `update package set current_status = coalesce($1, current_status),
        picked_up_at = <rule> where package_id = $2 returning current_status`. */
    method UpdatePackage(id: PackageId, status: Option<Status>, rule: PickupSql, now: int)
      returns (found: bool, current: Status)
      modifies this
      ensures found <==> id in old(packages)
      ensures found ==>
        var p := old(packages)[id];
        && packages == old(packages)[id := p.(status := if status.Some? then status.value else p.status,
                                               pickedUpAt := PickupAfter(rule, p.pickedUpAt, now))]
        && current == packages[id].status
      ensures !found ==> packages == old(packages)
      ensures State() == old(State()).(packages := packages)
    {
      found := id in packages;
      current := Arrived;
      if found {
        var p := packages[id];
        var q := p.(status := if status.Some? then status.value else p.status,
                    pickedUpAt := PickupAfter(rule, p.pickedUpAt, now));
        packages := packages[id := q];
        current := q.status;
      }
    }

    /** `insert into package_status_log (package_id, updated_by_staff_id,
        status, note) values (...)`; fails when the package or the staff
        member does not exist. `status_time` is the store's clock. */
    method InsertLog(id: PackageId, author: StaffId, status: Status, note: string, now: int) returns (ok: bool)
      modifies this
      ensures ok <==> id in old(packages) && author in old(staff)
      ensures ok ==> State() == Logged(old(State()), id, author, status, note, now)
      ensures !ok ==> State() == old(State())
    {
      ok := id in packages && author in staff;
      if ok {
        log := log + [LogEntry(nextLogId, id, author, status, note, now)];
        nextLogId := nextLogId + 1;
      }
    }

    /** `delete from package_status_log where ...`; nothing references a log
        entry, so it cannot fail. */
    method DeleteLogs(f: Sieve)
      modifies this
      ensures State() == old(State()).(log := KeepLogs(old(log), f))
    {
      log := KeepLogs(log, f);
    }

    /** `delete from package where ... returning package_id`, for the rows
        whose ids are `ids`; fails while a log entry still names one of them. */
    method DeletePackages(ids: set<PackageId>) returns (ok: bool, deleted: set<PackageId>)
      modifies this
      ensures ok <==> forall e :: e in old(log) ==> !(e.package in ids && e.package in old(packages))
      ensures ok ==> deleted == ids * old(packages).Keys && State() == old(State()).(packages := old(packages) - ids)
      ensures !ok ==> State() == old(State())
    {
      ok := forall e | e in log :: !(e.package in ids && e.package in packages);
      deleted := ids * packages.Keys;
      if ok {
        packages := packages - ids;
      }
    }

    /** `delete from tenant where tenant_id = $1 returning user_id`; fails
        while a package still names the tenant. */
    method DeleteTenantRow(t: TenantId) returns (ok: bool, user: Option<UserId>)
      modifies this
      ensures ok <==> t !in old(tenants) || forall id :: id in old(packages) ==> old(packages)[id].tenant != t
      ensures ok ==> user == (if t in old(tenants) then Some(old(tenants)[t].user) else None)
      ensures ok ==> State() == old(State()).(tenants := old(tenants) - {t})
      ensures !ok ==> State() == old(State())
    {
      ok := t !in tenants || forall id | id in packages :: packages[id].tenant != t;
      user := if t in tenants then Some(tenants[t].user) else None;
      if ok {
        tenants := tenants - {t};
      }
    }

    /** `delete from staff where staff_id = $1 returning user_id`; fails
        while a package or a log entry still names the staff member. */
    method DeleteStaffRow(s: StaffId) returns (ok: bool, user: Option<UserId>)
      modifies this
      ensures ok <==> (s !in old(staff) ||
        ((forall id :: id in old(packages) ==> old(packages)[id].receivedBy != s) && (forall e :: e in old(log) ==> e.staff != s)))
      ensures ok ==> user == (if s in old(staff) then Some(old(staff)[s].user) else None)
      ensures ok ==> State() == old(State()).(staff := old(staff) - {s})
      ensures !ok ==> State() == old(State())
    {
      ok := s !in staff || ((forall id | id in packages :: packages[id].receivedBy != s) && (forall e | e in log :: e.staff != s));
      user := if s in staff then Some(staff[s].user) else None;
      if ok {
        staff := staff - {s};
      }
    }

    /** `delete from user_account where user_id = $1`; fails while a tenant
        or staff row still rests on the account. */
    method DeleteUser(u: UserId) returns (ok: bool)
      modifies this
      ensures ok <==> (u !in old(users) ||
        ((forall t :: t in old(tenants) ==> old(tenants)[t].user != u) && (forall s :: s in old(staff) ==> old(staff)[s].user != u)))
      ensures ok ==> State() == old(State()).(users := old(users) - {u})
      ensures !ok ==> State() == old(State())
    {
      ok := u !in users || ((forall t | t in tenants :: tenants[t].user != u) && (forall s | s in staff :: staff[s].user != u));
      if ok {
        users := users - {u};
      }
    }

    /** `select tenant_id from tenant where building_id = $1 [and room_no = $2]`:
        each matching tenant once, in no particular order. */
    method SelectTenantIds(b: BuildingId, room: Option<string>) returns (ids: seq<TenantId>)
      ensures forall t :: t in ids <==> t in TenantsAt(tenants, b, room)
      ensures forall i, j :: 0 <= i < j < |ids| ==> ids[i] != ids[j]
    {
      ids := [];
      var rest := TenantsAt(tenants, b, room);
      while |rest| > 0
        invariant forall t :: t in TenantsAt(tenants, b, room) <==> t in rest || t in ids
        invariant forall t :: t in rest ==> t !in ids
        invariant forall i, j :: 0 <= i < j < |ids| ==> ids[i] != ids[j]
        decreases rest
      {
        ghost var w := Witness(rest);
        var x :| x in rest;
        ids := ids + [x];
        rest := rest - {x};
      }
    }

    /** `delete from room where building_id = $1 [and room_no = $2] returning ...`;
        fails while a tenant still lives in one of those rooms. */
    method DeleteRooms(b: BuildingId, room: Option<string>) returns (ok: bool, deleted: set<RoomKey>)
      modifies this
      ensures deleted == set k | k in old(rooms) && k.building == b && (room.None? || k.roomNo == room.value)
      ensures ok <==> forall t :: t in old(tenants) ==> RoomKey(old(tenants)[t].building, old(tenants)[t].roomNo) !in deleted
      ensures ok ==> State() == old(State()).(rooms := old(rooms) - deleted)
      ensures !ok ==> State() == old(State())
    {
      deleted := set k | k in rooms && k.building == b && (room.None? || k.roomNo == room.value);
      ok := forall t | t in tenants :: RoomKey(tenants[t].building, tenants[t].roomNo) !in deleted;
      if ok {
        rooms := rooms - deleted;
      }
    }

    /** `delete from building where building_id = $1 returning building_id`;
        fails while a room still belongs to the building. */
    method DeleteBuildingRow(b: BuildingId) returns (ok: bool, found: bool)
      modifies this
      ensures found <==> b in old(buildings)
      ensures ok <==> b !in old(buildings) || forall k :: k in old(rooms) ==> k.building != b
      ensures ok ==> State() == old(State()).(buildings := old(buildings) - {b})
      ensures !ok ==> State() == old(State())
    {
      found := b in buildings;
      ok := b !in buildings || forall k | k in rooms :: k.building != b;
      if ok {
        buildings := buildings - {b};
      }
    }

    /** `update tenant set phone = $1, email = $2 where tenant_id = $3`, with
        only the columns that are given. */
    method UpdateTenantContact(t: TenantId, phone: Option<string>, email: Option<string>)
      modifies this
      ensures t in old(tenants) ==>
        var r := old(tenants)[t];
        tenants == old(tenants)[t := r.(phone := if phone.Some? then phone else r.phone,
                                         email := if email.Some? then email else r.email)]
      ensures t !in old(tenants) ==> tenants == old(tenants)
      ensures State() == old(State()).(tenants := tenants)
    {
      if t in tenants {
        var r := tenants[t];
        tenants := tenants[t := r.(phone := if phone.Some? then phone else r.phone,
                                   email := if email.Some? then email else r.email)];
      }
    }
  }
}
