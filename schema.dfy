/** The relational schema the routes work on, as values: one datatype per row
    kind, `Db` for a whole database state, and the integrity conditions the
    foreign keys and the write paths maintain. */
module Schema {

  import opened Prelude

  type PackageId = int
  type TenantId = int
  type StaffId = int
  type UserId = int
  type BuildingId = int
  type LogId = int

  /** A row of `package`. Instants are integers; `pickedUpAt` is nullable. */
  datatype Package = Package(
    tenant: TenantId,
    receivedBy: StaffId,
    tracking: Option<string>,
    carrier: Option<string>,
    sender: Option<string>,
    arrivedAt: int,
    pickedUpAt: Option<int>,
    status: Status)

  /** A row of `package_status_log`; `time` is `status_time`, set by the store at insert. */
  datatype LogEntry = LogEntry(
    id: LogId,
    package: PackageId,
    staff: StaffId,
    status: Status,
    note: string,
    time: int)

  /** A row of `tenant`; its unit is the room (building, room number). */
  datatype Tenant = Tenant(
    user: UserId,
    building: BuildingId,
    roomNo: string,
    fullName: string,
    phone: Option<string>,
    email: Option<string>)

  /** A row of `staff` (officers and admins). */
  datatype Staff = Staff(user: UserId, fullName: string)

  /** A row of `user_account`; `role` is the text "TENANT", "OFFICER" or "ADMIN". */
  datatype User = User(username: string, role: string)

  /** The primary key of `room`. */
  datatype RoomKey = RoomKey(building: BuildingId, roomNo: string)

  /** A row of `building`. */
  datatype Building = Building(code: string, name: Option<string>)

  /** A whole database state. The two counters are the serial sequences that
      hand out `package_id` and `log_id`. */
  datatype Db = Db(
    packages: map<PackageId, Package>,
    log: seq<LogEntry>,
    tenants: map<TenantId, Tenant>,
    staff: map<StaffId, Staff>,
    users: map<UserId, User>,
    rooms: set<RoomKey>,
    buildings: map<BuildingId, Building>,
    nextPackageId: int,
    nextLogId: int)

  /** Every package names an existing tenant and receiving staff member, and
      its id was handed out by the sequence. */
  predicate PackagesLinked(db: Db)
  {
    forall id :: id in db.packages ==>
      db.packages[id].tenant in db.tenants && db.packages[id].receivedBy in db.staff && id < db.nextPackageId
  }

  /** Every log entry names an existing package and staff member; ids were
      handed out by the sequence in insertion order. */
  predicate LogLinked(db: Db)
  {
    && (forall e :: e in db.log ==> e.package in db.packages && e.staff in db.staff && e.id < db.nextLogId)
    && IdsIncreasing(db.log)
  }

  predicate IdsIncreasing(log: seq<LogEntry>)
  {
    forall i, j :: 0 <= i < j < |log| ==> log[i].id < log[j].id
  }

  /** Tenants live in existing rooms, rooms belong to existing buildings, and
      tenants and staff rest on existing user accounts. */
  predicate DirectoryLinked(db: Db)
  {
    && (forall t :: t in db.tenants ==>
          db.tenants[t].user in db.users && RoomKey(db.tenants[t].building, db.tenants[t].roomNo) in db.rooms)
    && (forall s :: s in db.staff ==> db.staff[s].user in db.users)
    && (forall r :: r in db.rooms ==> r.building in db.buildings)
  }

  /** Each user account backs at most one tenant or staff row: the only paths
      that create tenants and officers insert a fresh account for each. */
  predicate AccountsUnshared(db: Db)
  {
    && (forall t1, t2 :: t1 in db.tenants && t2 in db.tenants && t1 != t2 ==>
          db.tenants[t1].user != db.tenants[t2].user)
    && (forall s1, s2 :: s1 in db.staff && s2 in db.staff && s1 != s2 ==>
          db.staff[s1].user != db.staff[s2].user)
    && (forall t, s :: t in db.tenants && s in db.staff ==> db.tenants[t].user != db.staff[s].user)
  }

  /** Referential integrity of the whole state: no orphan row anywhere. */
  predicate Consistent(db: Db)
  {
    PackagesLinked(db) && LogLinked(db) && DirectoryLinked(db) && AccountsUnshared(db)
  }

  /** Every package keeps the entry its creation wrote: one by the staff
      member who received it. */
  predicate Audited(db: Db)
  {
    forall id :: id in db.packages ==>
      exists e :: e in db.log && e.package == id && e.staff == db.packages[id].receivedBy
  }

  /** A package whose status is ARRIVED has no pickup time. */
  predicate Unpicked(p: Package)
  {
    p.status == Arrived ==> p.pickedUpAt.None?
  }

  predicate ArrivedUnpicked(db: Db)
  {
    forall id :: id in db.packages ==> Unpicked(db.packages[id])
  }

  /** Which log entries a `delete from package_status_log where ...` spares. */
  datatype Sieve =
    | PackageNotIn(ids: set<PackageId>)  // where package_id in (...)
    | StaffIsNot(staff: StaffId)         // where updated_by_staff_id = $1
    | PackageIs(id: PackageId)           // the complement view: entries of one package

  predicate Keeps(f: Sieve, e: LogEntry)
  {
    match f
    case PackageNotIn(ids) => e.package !in ids
    case StaffIsNot(s) => e.staff != s
    case PackageIs(id) => e.package == id
  }

  /** The entries `f` keeps, in their original order. */
  function KeepLogs(log: seq<LogEntry>, f: Sieve): (r: seq<LogEntry>)
    ensures |r| <= |log|
    ensures forall e :: e in r <==> e in log && Keeps(f, e)
  {
    if log == [] then []
    else
      var rest := KeepLogs(log[1..], f);
      assert forall e :: e in log[1..] ==> e in log;
      if Keeps(f, log[0]) then [log[0]] + rest else rest
  }

  /** Filtering keeps the log's ids in insertion order. */
  lemma {:induction false} KeepLogsIncreasing(log: seq<LogEntry>, f: Sieve)
    requires IdsIncreasing(log)
    ensures IdsIncreasing(KeepLogs(log, f))
  {
    if log != [] {
      var tail := log[1..];
      assert IdsIncreasing(tail) by {
        forall i, j | 0 <= i < j < |tail| ensures tail[i].id < tail[j].id {
          assert tail[i] == log[i + 1] && tail[j] == log[j + 1];
        }
      }
      KeepLogsIncreasing(tail, f);
      if Keeps(f, log[0]) {
        forall e | e in KeepLogs(tail, f) ensures log[0].id < e.id {
          var k :| 0 <= k < |tail| && tail[k] == e;
          assert log[k + 1] == e;
        }
        IncreasingCons(log[0], KeepLogs(tail, f));
      }
    }
  }

  lemma IncreasingCons(x: LogEntry, rest: seq<LogEntry>)
    requires IdsIncreasing(rest) && forall e :: e in rest ==> x.id < e.id
    ensures IdsIncreasing([x] + rest)
  {
    var s := [x] + rest;
    forall i, j | 0 <= i < j < |s| ensures s[i].id < s[j].id {
      if i == 0 {
        assert s[j] in rest;
      } else {
        assert s[i] == rest[i - 1] && s[j] == rest[j - 1];
      }
    }
  }

  /** The history of one package, oldest first. */
  function HistoryOf(log: seq<LogEntry>, id: PackageId): seq<LogEntry>
  {
    KeepLogs(log, PackageIs(id))
  }

  /** Appending one entry extends the kept entries by it exactly when the sieve keeps it. */
  lemma {:induction false} KeepLogsAppend(log: seq<LogEntry>, x: LogEntry, f: Sieve)
    ensures KeepLogs(log + [x], f) == KeepLogs(log, f) + (if Keeps(f, x) then [x] else [])
  {
    if log != [] {
      assert (log + [x])[1..] == log[1..] + [x];
      KeepLogsAppend(log[1..], x, f);
    }
  }

  /** Two package sieves in a row spare what one sieve over both id sets spares. */
  lemma {:induction false} KeepLogsNotInTwice(log: seq<LogEntry>, a: set<PackageId>, b: set<PackageId>)
    ensures KeepLogs(KeepLogs(log, PackageNotIn(a)), PackageNotIn(b)) == KeepLogs(log, PackageNotIn(a + b))
  {
    if log != [] {
      KeepLogsNotInTwice(log[1..], a, b);
    }
  }

  /** A sieve that keeps every entry of the log returns the log unchanged. */
  lemma {:induction false} KeepLogsAll(log: seq<LogEntry>, f: Sieve)
    requires forall i :: 0 <= i < |log| ==> Keeps(f, log[i])
    ensures KeepLogs(log, f) == log
  {
    if log != [] {
      var tail := log[1..];
      assert forall i :: 0 <= i < |tail| ==> tail[i] == log[i + 1];
      KeepLogsAll(tail, f);
      calc {
        KeepLogs(log, f);
        [log[0]] + KeepLogs(tail, f);
        [log[0]] + tail;
        log;
      }
    }
  }
}
