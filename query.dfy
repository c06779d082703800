/** The read side shared by the three route files: calendar days, the
    conditions a filter builder pushes (each reading its own `$n`
    placeholder), the joined row a condition is evaluated on, and
    `order by <key> desc limit <n>`. */
module Query {

  import opened Prelude
  import opened Schema
  import opened Text

  /** The request's clock: `now()` as an instant in seconds, and the UTC
      calendar day `new Date().toISOString().slice(0, 10)` names. */
  datatype Clock = Clock(now: int, isoToday: int)

  /** `::date` of an instant: its day number (days since 1970-01-01). */
  function DayOf(t: int): int
  {
    t / 86400
  }

  /** `current_date`. */
  function Today(clk: Clock): int
  {
    DayOf(clk.now)
  }

  /** `date_trunc('month', ...)` of a day, as `year * 12 + month - 1` of the
      proleptic Gregorian calendar. */
  function MonthOf(day: int): int
  {
    var z := day + 719468;
    var era := z / 146097;
    var doe := z - era * 146097;
    var yoe := (doe - doe / 1460 + doe / 36524 - doe / 146096) / 365;
    var doy := doe - (365 * yoe + yoe / 4 - yoe / 100);
    var mp := (5 * doy + 2) / 153;
    var m := if mp < 10 then mp + 3 else mp - 9;
    var y := yoe + era * 400 + (if m <= 2 then 1 else 0);
    y * 12 + (m - 1)
  }

  /** A value bound to a placeholder. */
  datatype Param = Text(s: string) | Day(d: int) | Id(n: int)

  /** One `where` conjunct. A conjunct with a `slot` reads `$slot`. */
  datatype Cond =
    | StatusIs(slot: nat)          // p.current_status = $slot
    | ArrivedFrom(slot: nat)       // p.arrived_at::date >= $slot
    | ArrivedUntil(slot: nat)      // p.arrived_at::date <= $slot
    | ArrivedOn(slot: nat)         // p.arrived_at::date = $slot
    | ArrivedToday                 // p.arrived_at::date = current_date
    | ArrivedWithin(days: nat)     // p.arrived_at::date >= current_date - interval 'days'
    | ArrivedThisMonth             // date_trunc('month', p.arrived_at) = date_trunc('month', current_date)
    | UnitIs(slot: nat)            // (b.building_code || r.room_no) = $slot
    | OwnedBy(slot: nat)           // p.tenant_id = $slot
    | Search(slot: nat)            // four `lower(...) like $slot` alternatives
    | EntryStatusIs(slot: nat)     // psl.status = $slot
    | LoggedOn(slot: nat)          // psl.status_time::date = $slot

  /** A row of the joined query: the package, its unit (building code
      followed by room number) and, for the log feeds, the log entry. */
  datatype Row = Row(pkg: Package, unit: string, entry: Option<LogEntry>)

  /** The value bound to `$k`, if there is one. */
  function Arg(vals: seq<Param>, k: nat): Option<Param>
  {
    if 1 <= k <= |vals| then Some(vals[k - 1]) else None
  }

  /** SQL `like` for the patterns the handlers build: `%x%` is a substring
      test; any other pattern must match exactly. */
  predicate Like(text: string, pattern: string)
  {
    if |pattern| >= 2 && pattern[0] == '%' && pattern[|pattern| - 1] == '%'
    then Contains(text, pattern[1..|pattern| - 1])
    else text == pattern
  }

  /** The search conjunct of the tenant list, for one pattern. */
  predicate SearchHolds(p: Package, pattern: string)
  {
    || Like(Lower(OrEmpty(p.tracking)), pattern)
    || Like(Lower(OrEmpty(p.carrier)), pattern)
    || Like(Lower(OrEmpty(p.sender)), pattern)
    || Like(Lower(StatusName(p.status)), pattern)
  }

  predicate Holds(c: Cond, vals: seq<Param>, row: Row, clk: Clock)
  {
    var d := DayOf(row.pkg.arrivedAt);
    match c
    case StatusIs(k) => (match Arg(vals, k) case Some(Text(s)) => StatusName(row.pkg.status) == s case _ => false)
    case ArrivedFrom(k) => (match Arg(vals, k) case Some(Day(x)) => d >= x case _ => false)
    case ArrivedUntil(k) => (match Arg(vals, k) case Some(Day(x)) => d <= x case _ => false)
    case ArrivedOn(k) => (match Arg(vals, k) case Some(Day(x)) => d == x case _ => false)
    case ArrivedToday => d == Today(clk)
    case ArrivedWithin(n) => d >= Today(clk) - n
    case ArrivedThisMonth => MonthOf(d) == MonthOf(Today(clk))
    case UnitIs(k) => (match Arg(vals, k) case Some(Text(s)) => row.unit == s case _ => false)
    case OwnedBy(k) => (match Arg(vals, k) case Some(Id(n)) => row.pkg.tenant == n case _ => false)
    case Search(k) => (match Arg(vals, k) case Some(Text(s)) => SearchHolds(row.pkg, s) case _ => false)
    case EntryStatusIs(k) =>
      (match Arg(vals, k) case Some(Text(s)) => row.entry.Some? && StatusName(row.entry.value.status) == s case _ => false)
    case LoggedOn(k) =>
      (match Arg(vals, k) case Some(Day(x)) => row.entry.Some? && DayOf(row.entry.value.time) == x case _ => false)
  }

  /** The `where` clause: every conjunct holds (no conjunct, no `where`). */
  predicate HoldsAll(conds: seq<Cond>, vals: seq<Param>, row: Row, clk: Clock)
  {
    forall i :: 0 <= i < |conds| ==> Holds(conds[i], vals, row, clk)
  }

  /** The placeholders a conjunct mentions, in textual order. */
  function SlotsOf(c: Cond): seq<nat>
  {
    match c
    case StatusIs(k) => [k]
    case ArrivedFrom(k) => [k]
    case ArrivedUntil(k) => [k]
    case ArrivedOn(k) => [k]
    case ArrivedToday => []
    case ArrivedWithin(_) => []
    case ArrivedThisMonth => []
    case UnitIs(k) => [k]
    case OwnedBy(k) => [k]
    case Search(k) => [k]
    case EntryStatusIs(k) => [k]
    case LoggedOn(k) => [k]
  }

  /** The distinct placeholders of a `where` clause, in textual order. */
  function Slots(conds: seq<Cond>): seq<nat>
  {
    if conds == [] then [] else Slots(conds[..|conds| - 1]) + SlotsOf(conds[|conds| - 1])
  }

  /** `$1, $2, ..., $n`. */
  function Upto(n: nat): (r: seq<nat>)
    ensures |r| == n && forall i :: 0 <= i < n ==> r[i] == i + 1
  {
    if n == 0 then [] else Upto(n - 1) + [n]
  }

  /** The placeholder discipline: the k-th placeholder the clause mentions is
      `$k`, and there is one bound value per placeholder. */
  predicate Numbered(conds: seq<Cond>, vals: seq<Param>)
  {
    Slots(conds) == Upto(|vals|)
  }

  /** Pushing a conjunct that reads the next placeholder together with its
      value keeps the discipline, and a conjunct without placeholder keeps it too. */
  lemma NumberedPush(conds: seq<Cond>, vals: seq<Param>, c: Cond, v: seq<Param>)
    requires Numbered(conds, vals)
    requires (SlotsOf(c) == [] && v == []) || (SlotsOf(c) == [|vals| + 1] && |v| == 1)
    ensures Numbered(conds + [c], vals + v)
  {
    assert (conds + [c])[..|conds|] == conds;
  }

  /** Under the discipline, every conjunct's placeholder has its value, and
      binding one more value changes no conjunct already in the clause. */
  lemma {:induction false} SlotsBound(conds: seq<Cond>, n: nat)
    requires Slots(conds) == Upto(n)
    ensures forall i, k :: 0 <= i < |conds| && k in SlotsOf(conds[i]) ==> 1 <= k <= n
  {
    if conds != [] {
      var m := |Slots(conds[..|conds| - 1])|;
      assert Slots(conds[..|conds| - 1]) == Upto(n)[..m];
      assert Upto(n)[..m] == Upto(m);
      SlotsBound(conds[..|conds| - 1], m);
      forall i, k | 0 <= i < |conds| && k in SlotsOf(conds[i]) ensures 1 <= k <= n {
        if i < |conds| - 1 {
          assert conds[i] == conds[..|conds| - 1][i];
        } else {
          var j :| 0 <= j < |SlotsOf(conds[i])| && SlotsOf(conds[i])[j] == k;
          assert k == Upto(n)[m + j];
        }
      }
    }
  }

  /** Extending the bound values past every placeholder of a conjunct does not change it. */
  lemma HoldsExtended(c: Cond, vals: seq<Param>, v: seq<Param>, row: Row, clk: Clock)
    requires forall k :: k in SlotsOf(c) ==> 1 <= k <= |vals|
    ensures Holds(c, vals + v, row, clk) == Holds(c, vals, row, clk)
  {
    forall k | k in SlotsOf(c) ensures Arg(vals + v, k) == Arg(vals, k) { }
  }

  /** What a clause of placeholder-disciplined conjuncts means after one
      more conjunct and its values are pushed. */
  lemma HoldsAllPush(conds: seq<Cond>, vals: seq<Param>, c: Cond, v: seq<Param>, row: Row, clk: Clock)
    requires Numbered(conds, vals)
    ensures HoldsAll(conds + [c], vals + v, row, clk) <==> HoldsAll(conds, vals, row, clk) && Holds(c, vals + v, row, clk)
  {
    SlotsBound(conds, |vals|);
    forall i | 0 <= i < |conds| ensures Holds(conds[i], vals + v, row, clk) == Holds(conds[i], vals, row, clk) {
      HoldsExtended(conds[i], vals, v, row, clk);
    }
    assert forall i :: 0 <= i < |conds| ==> (conds + [c])[i] == conds[i];
    assert (conds + [c])[|conds|] == c;
  }

  /** One `filters.push(...)` together with the matching `values.push(...)`:
      the clause keeps the placeholder discipline and now also demands `c`. */
  method Push(conds: seq<Cond>, vals: seq<Param>, c: Cond, v: seq<Param>, ghost clk: Clock)
    returns (conds': seq<Cond>, vals': seq<Param>)
    requires Numbered(conds, vals)
    requires (SlotsOf(c) == [] && v == []) || (SlotsOf(c) == [|vals| + 1] && |v| == 1)
    ensures conds' == conds + [c] && vals' == vals + v
    ensures Numbered(conds', vals')
    ensures forall row :: HoldsAll(conds', vals', row, clk) <==> HoldsAll(conds, vals, row, clk) && Holds(c, vals', row, clk)
  {
    conds' := conds + [c];
    vals' := vals + v;
    NumberedPush(conds, vals, c, v);
    forall row ensures HoldsAll(conds', vals', row, clk) <==> HoldsAll(conds, vals, row, clk) && Holds(c, vals', row, clk) {
      HoldsAllPush(conds, vals, c, v, row, clk);
    }
  }

  /** `end_date || (startDate ? new Date().toISOString().slice(0, 10) : null)`:
      with a start date the range always has an end. */
  function RangeEnd(start: Option<int>, end: Option<int>, clk: Clock): (r: Option<int>)
    ensures end.Some? ==> r == end
    ensures end.None? ==> (r.Some? <==> start.Some?) && (r.Some? ==> r.value == clk.isoToday)
  {
    if end.Some? then end else if start.Some? then Some(clk.isoToday) else None
  }

  /** The date range a start date selects: from the start day to the end
      day, or to today when no end day is given. */
  predicate InRange(start: int, end: Option<int>, d: int, clk: Clock)
  {
    start <= d && d <= (if end.Some? then end.value else clk.isoToday)
  }

  /** `if (startDate) { push(arrived >= $idx); if (endDate) push(arrived <= $idx) }`,
      with `endDate` defaulted as above. */
  method PushRange(conds: seq<Cond>, vals: seq<Param>, idx: nat, start: int, end: Option<int>, clk: Clock)
    returns (conds': seq<Cond>, vals': seq<Param>, idx': nat)
    requires Numbered(conds, vals) && idx == |vals| + 1
    ensures Numbered(conds', vals') && idx' == |vals'| + 1
    ensures forall row :: HoldsAll(conds', vals', row, clk) <==>
      (HoldsAll(conds, vals, row, clk) && InRange(start, end, DayOf(row.pkg.arrivedAt), clk))
  {
    conds', vals' := Push(conds, vals, ArrivedFrom(idx), [Day(start)], clk);
    idx' := idx + 1;
    var endDate := RangeEnd(Some(start), end, clk);
    if endDate.Some? {
      conds', vals' := Push(conds', vals', ArrivedUntil(idx'), [Day(endDate.value)], clk);
      idx' := idx' + 1;
    }
  }

  /** `if (status) { push(p.current_status = $idx); values.push(status) }`. */
  method PushStatus(conds: seq<Cond>, vals: seq<Param>, idx: nat, status: Option<string>, ghost clk: Clock)
    returns (conds': seq<Cond>, vals': seq<Param>, idx': nat)
    requires Numbered(conds, vals) && idx == |vals| + 1
    ensures Numbered(conds', vals') && idx' == |vals'| + 1
    ensures forall row :: HoldsAll(conds', vals', row, clk) <==>
      (HoldsAll(conds, vals, row, clk) && (Truthy(status) ==> StatusName(row.pkg.status) == status.value))
  {
    conds', vals', idx' := conds, vals, idx;
    if Truthy(status) {
      conds', vals' := Push(conds, vals, StatusIs(idx), [Text(status.value)], clk);
      idx' := idx + 1;
    }
  }

  /** `if (status) { push(psl.status = $idx); values.push(status) }`. */
  method PushEntryStatus(conds: seq<Cond>, vals: seq<Param>, idx: nat, status: Option<string>, ghost clk: Clock)
    returns (conds': seq<Cond>, vals': seq<Param>, idx': nat)
    requires Numbered(conds, vals) && idx == |vals| + 1
    ensures Numbered(conds', vals') && idx' == |vals'| + 1
    ensures forall row :: HoldsAll(conds', vals', row, clk) <==>
      (HoldsAll(conds, vals, row, clk) && (Truthy(status) ==> row.entry.Some? && StatusName(row.entry.value.status) == status.value))
  {
    conds', vals', idx' := conds, vals, idx;
    if Truthy(status) {
      conds', vals' := Push(conds, vals, EntryStatusIs(idx), [Text(status.value)], clk);
      idx' := idx + 1;
    }
  }

  /** `if (unit) { push((b.building_code || r.room_no) = $idx); values.push(unit) }`. */
  method PushUnit(conds: seq<Cond>, vals: seq<Param>, idx: nat, unit: Option<string>, ghost clk: Clock)
    returns (conds': seq<Cond>, vals': seq<Param>, idx': nat)
    requires Numbered(conds, vals) && idx == |vals| + 1
    ensures Numbered(conds', vals') && idx' == |vals'| + 1
    ensures forall row :: HoldsAll(conds', vals', row, clk) <==>
      (HoldsAll(conds, vals, row, clk) && (Truthy(unit) ==> row.unit == unit.value))
  {
    conds', vals', idx' := conds, vals, idx;
    if Truthy(unit) {
      conds', vals' := Push(conds, vals, UnitIs(idx), [Text(unit.value)], clk);
      idx' := idx + 1;
    }
  }

  /** `if (date) { push(psl.status_time::date = $idx); values.push(date) }`. */
  method PushLoggedOn(conds: seq<Cond>, vals: seq<Param>, idx: nat, date: Option<int>, ghost clk: Clock)
    returns (conds': seq<Cond>, vals': seq<Param>, idx': nat)
    requires Numbered(conds, vals) && idx == |vals| + 1
    ensures Numbered(conds', vals') && idx' == |vals'| + 1
    ensures forall row :: HoldsAll(conds', vals', row, clk) <==>
      (HoldsAll(conds, vals, row, clk) && (date.Some? ==> row.entry.Some? && DayOf(row.entry.value.time) == date.value))
  {
    conds', vals', idx' := conds, vals, idx;
    if date.Some? {
      conds', vals' := Push(conds, vals, LoggedOn(idx), [Day(date.value)], clk);
      idx' := idx + 1;
    }
  }

  /** `if (search) { push(<four lower(...) like $idx>); values.push("%" + lower(search) + "%"); idx += 1 }`:
      one bound value serves all four alternatives. */
  method PushSearch(conds: seq<Cond>, vals: seq<Param>, idx: nat, search: Option<string>, ghost clk: Clock)
    returns (conds': seq<Cond>, vals': seq<Param>, idx': nat)
    requires Numbered(conds, vals) && idx == |vals| + 1
    ensures Numbered(conds', vals') && idx' == |vals'| + 1
    ensures forall row :: HoldsAll(conds', vals', row, clk) <==>
      (HoldsAll(conds, vals, row, clk) && (Truthy(search) ==> SearchHolds(row.pkg, "%" + Lower(search.value) + "%")))
  {
    conds', vals', idx' := conds, vals, idx;
    if Truthy(search) {
      conds', vals' := Push(conds, vals, Search(idx), [Text("%" + Lower(search.value) + "%")], clk);
      idx' := idx + 1;
    }
  }

  /** The newest entry of a package's history: no entry of that package is later. */
  predicate Newest(log: seq<LogEntry>, id: PackageId, e: LogEntry)
  {
    e in log && e.package == id && forall x :: x in log && x.package == id ==> x.time <= e.time
  }

  /** `select note from package_status_log where package_id = $1 order by
      status_time desc limit 1`, then `rows[0]?.note || ""`. */
  method LatestNote(log: seq<LogEntry>, id: PackageId) returns (note: string)
    ensures (forall e :: e in log ==> e.package != id) ==> note == ""
    ensures (exists e :: e in log && e.package == id) ==> exists e :: Newest(log, id, e) && note == e.note
  {
    var entries := set e | e in log && e.package == id;
    var top := SelectTop(entries, EntryTime, 1);
    TopOne(top, entries, EntryTime);
    if |top| == 0 {
      note := "";
      forall e | e in log ensures e.package != id {
        assert e !in entries;
      }
    } else {
      note := top[0].note;
      forall x | x in log && x.package == id ensures x.time <= top[0].time {
        assert x in entries;
        assert EntryTime(x) <= EntryTime(top[0]);
      }
      assert Newest(log, id, top[0]);
    }
  }

  /** The unit label `building_code || room_no` of a tenant, when the
      tenant's room and building rows exist (the inner joins). */
  function UnitOf(db: Db, t: TenantId): (r: Option<string>)
    ensures r.Some? <==> t in db.tenants && RoomKey(db.tenants[t].building, db.tenants[t].roomNo) in db.rooms
                         && db.tenants[t].building in db.buildings
    ensures r.Some? ==> r.value == db.buildings[db.tenants[t].building].code + db.tenants[t].roomNo
  {
    if t in db.tenants && RoomKey(db.tenants[t].building, db.tenants[t].roomNo) in db.rooms
       && db.tenants[t].building in db.buildings
    then Some(db.buildings[db.tenants[t].building].code + db.tenants[t].roomNo)
    else None
  }

  /** The package row as the package queries see it. */
  function PackageRow(db: Db, id: PackageId): Row
    requires id in db.packages
  {
    var p := db.packages[id];
    Row(p, match UnitOf(db, p.tenant) case Some(u) => u case None => "", None)
  }

  /** The log-feed row of an entry whose package exists. */
  function EntryRow(db: Db, e: LogEntry): Row
    requires e.package in db.packages
  {
    PackageRow(db, e.package).(entry := Some(e))
  }

  /** `from package p join tenant ... join room ... join building ... where <conds>`. */
  function JoinedPackages(db: Db, conds: seq<Cond>, vals: seq<Param>, clk: Clock): set<PackageId>
  {
    set id | id in db.packages && UnitOf(db, db.packages[id].tenant).Some? && HoldsAll(conds, vals, PackageRow(db, id), clk)
  }

  /** `from package p where <conds>` (no join). */
  function PlainPackages(db: Db, conds: seq<Cond>, vals: seq<Param>, clk: Clock): set<PackageId>
  {
    set id | id in db.packages && HoldsAll(conds, vals, PackageRow(db, id), clk)
  }

  /** `from package_status_log psl join package ... join tenant ... join room
      ... join building ... left join staff ... where <conds>`. */
  function JoinedEntries(db: Db, conds: seq<Cond>, vals: seq<Param>, clk: Clock): set<LogEntry>
  {
    set e | e in db.log && e.package in db.packages && UnitOf(db, db.packages[e.package].tenant).Some?
                        && HoldsAll(conds, vals, EntryRow(db, e), clk)
  }

  /** The sort key `p.arrived_at`. */
  function ArrivalKey(db: Db): PackageId -> int
  {
    (id: PackageId) => if id in db.packages then db.packages[id].arrivedAt else 0
  }

  /** The sort key `status_time`. */
  function EntryTime(e: LogEntry): int
  {
    e.time
  }

  /** `r` is an admissible answer to `order by key desc limit limit` over
      `cands`: distinct candidates, as many as the limit allows, in
      non-increasing key order, and no omitted candidate ranks above a
      returned one. Ties may come in any order. */
  predicate IsTop<T>(r: seq<T>, cands: set<T>, key: T -> int, limit: nat)
  {
    && (forall i, j :: 0 <= i < j < |r| ==> r[i] != r[j])
    && (forall i :: 0 <= i < |r| ==> r[i] in cands)
    && |r| == (if limit < |cands| then limit else |cands|)
    && (forall i, j :: 0 <= i < j < |r| ==> key(r[i]) >= key(r[j]))
    && (forall x, i :: x in cands && x !in r && 0 <= i < |r| ==> key(x) <= key(r[i]))
  }

  /** A non-empty finite set has an element of greatest key. */
  lemma {:induction false} MaxExists<T>(s: set<T>, key: T -> int)
    requires s != {}
    ensures exists m :: m in s && forall y :: y in s ==> key(y) <= key(m)
    decreases s
  {
    var x :| x in s;
    if s != {x} {
      var rest := s - {x};
      MaxExists(rest, key);
      var m :| m in rest && forall y :: y in rest ==> key(y) <= key(m);
      if key(x) <= key(m) {
        assert forall y :: y in s ==> key(y) <= key(m);
      } else {
        assert forall y :: y in s ==> key(y) <= key(x);
      }
    }
  }

  /** Selection of the top `limit` candidates by repeatedly taking one of greatest key. */
  method SelectTop<T>(cands: set<T>, key: T -> int, limit: nat) returns (r: seq<T>)
    ensures IsTop(r, cands, key, limit)
  {
    r := [];
    var rest := cands;
    while |r| < limit && rest != {}
      invariant |r| <= limit
      invariant rest <= cands
      invariant forall x :: x in cands ==> (x in rest <==> x !in r)
      invariant forall i :: 0 <= i < |r| ==> r[i] in cands
      invariant |r| + |rest| == |cands|
      invariant forall i, j :: 0 <= i < j < |r| ==> r[i] != r[j]
      invariant forall i, j :: 0 <= i < j < |r| ==> key(r[i]) >= key(r[j])
      invariant forall x, i :: x in rest && 0 <= i < |r| ==> key(x) <= key(r[i])
      decreases rest
    {
      MaxExists(rest, key);
      var m :| m in rest && forall y :: y in rest ==> key(y) <= key(m);
      r := r + [m];
      rest := rest - {m};
    }
  }

  /** The answer of a `limit 1` query is the single greatest element, if any. */
  lemma TopOne<T>(r: seq<T>, cands: set<T>, key: T -> int)
    requires IsTop(r, cands, key, 1)
    ensures |r| == 0 <==> cands == {}
    ensures |r| == 1 ==> r[0] in cands && forall x :: x in cands ==> key(x) <= key(r[0])
  {
    if |r| == 1 {
      forall x | x in cands ensures key(x) <= key(r[0]) {
        if x != r[0] {
          assert x !in r;
        }
      }
    }
    if cands != {} {
      var x :| x in cands;
    }
  }

  /** Without a limit, the answer is every candidate exactly once, newest first. */
  lemma TopAll<T>(r: seq<T>, cands: set<T>, key: T -> int)
    requires IsTop(r, cands, key, |cands|)
    ensures forall x :: x in cands <==> x in r
  {
    var s := set i | 0 <= i < |r| :: r[i];
    assert s <= cands;
    DistinctCard(r);
    if s != cands {
      CardLess(s, cands);
    }
  }

  lemma {:induction false} DistinctCard<T>(r: seq<T>)
    requires forall i, j :: 0 <= i < j < |r| ==> r[i] != r[j]
    ensures |set i | 0 <= i < |r| :: r[i]| == |r|
  {
    if r != [] {
      var init := r[..|r| - 1];
      DistinctCard(init);
      var a := set i | 0 <= i < |init| :: init[i];
      var b := set i | 0 <= i < |r| :: r[i];
      assert b == a + {r[|r| - 1]};
      assert r[|r| - 1] !in a;
    }
  }

  lemma CardLess<T>(s: set<T>, t: set<T>)
    requires s < t
    ensures |s| < |t|
  {
    assert exists x :: x in t && x !in s;
    var x :| x in t && x !in s;
    var u := t - {x};
    assert |u| == |t| - 1;
    assert s + (u - s) == u;
    assert |s + (u - s)| == |s| + |u - s|;
  }
}
