/** The tenant routes (backend/routes/tenant.js). Every handler starts from
    `getTenantContext`: the caller's token must verify and its account must
    back a tenant row whose room and building exist. Every query is then
    scoped to that tenant. */
module TenantRoutes {

  import opened Prelude
  import opened Schema
  import opened Ledger
  import opened Text
  import opened Query
  import opened Auth
  import opened Database

  /** The profile `getTenantContext` selects. */
  datatype Context = Context(
    tenant: TenantId,
    fullName: string,
    phone: Option<string>,
    email: Option<string>,
    roomNo: string,
    buildingCode: string)

  /** A tenant row of the account with its room and building joined. */
  predicate ProfileRow(db: Db, t: TenantId, user: UserId)
  {
    t in db.tenants && db.tenants[t].user == user && UnitOf(db, t).Some?
  }

  /** The account backs a tenant row with its room and building joined. */
  ghost predicate HasProfile(db: Db, user: UserId)
  {
    exists t :: ProfileRow(db, t, user)
  }

  /** The profile of such a row. */
  function ContextOf(db: Db, t: TenantId): (c: Context)
    requires t in db.tenants && UnitOf(db, t).Some?
    ensures c.tenant == t && c.phone == db.tenants[t].phone && c.email == db.tenants[t].email
  {
    var r := db.tenants[t];
    Context(t, r.fullName, r.phone, r.email, r.roomNo, db.buildings[r.building].code)
  }

  /** `getTenantContext`: 401 as `Authenticate` says, 404 "Tenant profile
      not found" when the account backs no joined tenant row, otherwise the
      profile of one such row. No role is checked. */
  method GetTenantContext(store: Store, header: Option<string>, tokens: map<string, Claims>) returns (reply: Reply, ctx: Option<Context>)
    ensures Authenticate(header, tokens).Deny? ==>
      reply == Reply(Authenticate(header, tokens).code, Authenticate(header, tokens).message) && ctx == None
    ensures Authenticate(header, tokens).Pass? ==>
      (ctx.Some? <==> HasProfile(store.State(), Authenticate(header, tokens).claims.userId))
    ensures Authenticate(header, tokens).Pass? && ctx.None? ==> reply == Reply(404, "Tenant profile not found")
    ensures ctx.Some? ==>
      && reply.code == 200 && Authenticate(header, tokens).Pass?
      && ProfileRow(store.State(), ctx.value.tenant, Authenticate(header, tokens).claims.userId)
      && ctx.value == ContextOf(store.State(), ctx.value.tenant)
  {
    var gate := Authenticate(header, tokens);
    if gate.Deny? {
      return Reply(gate.code, gate.message), None;
    }
    var db := store.State();
    var rows := set t | t in db.tenants && db.tenants[t].user == gate.claims.userId && UnitOf(db, t).Some?;
    if |rows| == 0 {
      forall t | ProfileRow(db, t, gate.claims.userId) ensures t in rows {
      }
      return Reply(404, "Tenant profile not found"), None;
    }
    ghost var w := Witness(rows);
    var t :| t in rows;
    assert ProfileRow(db, t, gate.claims.userId);
    reply, ctx := Reply(200, ""), Some(ContextOf(db, t));
  }

  /** In a consistent state an account backs at most one tenant row, so the
      context is the same whichever row the lookup returns first. */
  lemma ContextUnique(db: Db, user: UserId, t1: TenantId, t2: TenantId)
    requires Consistent(db) && ProfileRow(db, t1, user) && ProfileRow(db, t2, user)
    ensures t1 == t2
  {
  }

  /** The dashboard cards. */
  datatype Cards = Cards(waiting: nat, pickedUpThisMonth: nat, returned: nat)

  /** The tenant's packages with a given status. */
  function OwnedWith(db: Db, t: TenantId, s: Status): set<PackageId>
  {
    set id | id in db.packages && db.packages[id].tenant == t && db.packages[id].status == s
  }

  /** The tenant's PICKED_UP packages whose pickup time falls in the current month. */
  function PickedUpThisMonth(db: Db, t: TenantId, clk: Clock): set<PackageId>
  {
    set id | id in OwnedWith(db, t, PickedUp) && db.packages[id].pickedUpAt.Some?
                && MonthOf(DayOf(db.packages[id].pickedUpAt.value)) == MonthOf(Today(clk))
  }

  /** GET /dashboard: the three counts and the five newest waiting packages. */
  method Dashboard(store: Store, header: Option<string>, tokens: map<string, Claims>, clk: Clock)
    returns (reply: Reply, ctx: Option<Context>, cards: Cards, latest: seq<PackageId>)
    ensures Authenticate(header, tokens).Deny? ==>
      reply == Reply(Authenticate(header, tokens).code, Authenticate(header, tokens).message) && ctx == None
    ensures Authenticate(header, tokens).Pass? ==>
      (ctx.Some? <==> HasProfile(store.State(), Authenticate(header, tokens).claims.userId))
    ensures Authenticate(header, tokens).Pass? && ctx.None? ==> reply == Reply(404, "Tenant profile not found")
    ensures ctx.None? ==> latest == []
    ensures ctx.Some? ==>
      var db := store.State();
      var t := ctx.value.tenant;
      && reply.code == 200
      && ProfileRow(db, t, Authenticate(header, tokens).claims.userId)
      && cards == Cards(|OwnedWith(db, t, Arrived)|, |PickedUpThisMonth(db, t, clk)|, |OwnedWith(db, t, Returned)|)
      && IsTop(latest, OwnedWith(db, t, Arrived), ArrivalKey(db), 5)
  {
    cards := Cards(0, 0, 0);
    latest := [];
    reply, ctx := GetTenantContext(store, header, tokens);
    if ctx.None? {
      return;
    }
    var db := store.State();
    var t := ctx.value.tenant;
    cards := Cards(|OwnedWith(db, t, Arrived)|, |PickedUpThisMonth(db, t, clk)|, |OwnedWith(db, t, Returned)|);
    latest := SelectTop(OwnedWith(db, t, Arrived), ArrivalKey(db), 5);
  }

  /** The waiting list shows every waiting package when there are at most
      five, and the card counts at least as many as the list shows. */
  lemma LatestWaitingBounds(db: Db, t: TenantId, latest: seq<PackageId>)
    requires IsTop(latest, OwnedWith(db, t, Arrived), ArrivalKey(db), 5)
    ensures |latest| <= |OwnedWith(db, t, Arrived)|
    ensures |OwnedWith(db, t, Arrived)| <= 5 ==> forall id :: id in OwnedWith(db, t, Arrived) ==> id in latest
    ensures forall i :: 0 <= i < |latest| ==> latest[i] in db.packages && db.packages[latest[i]].tenant == t
  {
    if |OwnedWith(db, t, Arrived)| <= 5 {
      TopAll(latest, OwnedWith(db, t, Arrived), ArrivalKey(db));
    }
  }

  /** The query of GET /packages. */
  datatype TenantQuery = TenantQuery(
    status: Option<string>,
    search: Option<string>,
    period: Option<string>,
    startDate: Option<int>,
    endDate: Option<int>)

  /** The arrival-day window: a start date's range first, then the period
      today, last7, last30 or month; any other period selects no window. */
  predicate InTenantWindow(q: TenantQuery, d: int, clk: Clock)
  {
    if q.startDate.Some? then InRange(q.startDate.value, q.endDate, d, clk)
    else if q.period == Some("today") then d == Today(clk)
    else if q.period == Some("last7") then d >= Today(clk) - 6
    else if q.period == Some("last30") then d >= Today(clk) - 29
    else if q.period == Some("month") then MonthOf(d) == MonthOf(Today(clk))
    else true
  }

  /** A case-insensitive substring search over the tracking number,
      carrier, sender and status (a null column reads as ""). */
  predicate Mentions(p: Package, term: string)
  {
    var needle := Lower(term);
    || Contains(Lower(OrEmpty(p.tracking)), needle)
    || Contains(Lower(OrEmpty(p.carrier)), needle)
    || Contains(Lower(OrEmpty(p.sender)), needle)
    || Contains(Lower(StatusName(p.status)), needle)
  }

  /** Which package rows GET /packages asks for on behalf of tenant `t`. */
  predicate TenantWants(q: TenantQuery, t: TenantId, row: Row, clk: Clock)
  {
    && row.pkg.tenant == t
    && InTenantWindow(q, DayOf(row.pkg.arrivedAt), clk)
    && (Truthy(q.status) ==> StatusName(row.pkg.status) == q.status.value)
    && (Truthy(q.search) ==> Mentions(row.pkg, q.search.value))
  }

  /** The `%x%` pattern the handler binds makes the four `like` tests a substring search. */
  lemma SearchMeansMentions(p: Package, term: string)
    ensures SearchHolds(p, "%" + Lower(term) + "%") <==> Mentions(p, term)
  {
    var pattern := "%" + Lower(term) + "%";
    assert pattern[1..|pattern| - 1] == Lower(term);
  }

  /** The date part of the tenant filter. */
  method PushTenantWindow(conds: seq<Cond>, vals: seq<Param>, idx: nat, q: TenantQuery, clk: Clock)
    returns (conds': seq<Cond>, vals': seq<Param>, idx': nat)
    requires Numbered(conds, vals) && idx == |vals| + 1
    ensures Numbered(conds', vals') && idx' == |vals'| + 1
    ensures forall row :: HoldsAll(conds', vals', row, clk) <==>
      (HoldsAll(conds, vals, row, clk) && InTenantWindow(q, DayOf(row.pkg.arrivedAt), clk))
  {
    conds', vals', idx' := conds, vals, idx;
    if q.startDate.Some? {
      conds', vals', idx' := PushRange(conds, vals, idx, q.startDate.value, q.endDate, clk);
    } else if q.period == Some("today") {
      conds', vals' := Push(conds, vals, ArrivedToday, [], clk);
    } else if q.period == Some("last7") {
      conds', vals' := Push(conds, vals, ArrivedWithin(6), [], clk);
    } else if q.period == Some("last30") {
      conds', vals' := Push(conds, vals, ArrivedWithin(29), [], clk);
    } else if q.period == Some("month") {
      conds', vals' := Push(conds, vals, ArrivedThisMonth, [], clk);
    }
  }

  /** The `where` clause GET /packages builds. It starts from
      `p.tenant_id = $1` bound to the caller's tenant id, so whatever the
      query, every row it admits belongs to the caller. */
  method BuildTenantFilter(t: TenantId, q: TenantQuery, clk: Clock) returns (conds: seq<Cond>, vals: seq<Param>)
    ensures Numbered(conds, vals)
    ensures forall row :: HoldsAll(conds, vals, row, clk) <==> TenantWants(q, t, row, clk)
  {
    conds, vals := Push([], [], OwnedBy(1), [Id(t)], clk);
    var idx := 2;
    conds, vals, idx := PushTenantWindow(conds, vals, idx, q, clk);
    conds, vals, idx := PushStatus(conds, vals, idx, q.status, clk);
    conds, vals, idx := PushSearch(conds, vals, idx, q.search, clk);
    forall row ensures HoldsAll(conds, vals, row, clk) <==> TenantWants(q, t, row, clk) {
      if Truthy(q.search) {
        SearchMeansMentions(row.pkg, q.search.value);
      }
    }
  }

  /** The packages GET /packages may return (no join: `from package p`). */
  function TenantMatches(db: Db, t: TenantId, q: TenantQuery, clk: Clock): set<PackageId>
  {
    set id | id in db.packages && TenantWants(q, t, PackageRow(db, id), clk)
  }

  /** GET /packages: the newest 200 matching packages by arrival, all of
      them the caller's. */
  method ListPackages(store: Store, header: Option<string>, tokens: map<string, Claims>, q: TenantQuery, clk: Clock)
    returns (reply: Reply, ctx: Option<Context>, rows: seq<PackageId>)
    ensures Authenticate(header, tokens).Deny? ==>
      reply == Reply(Authenticate(header, tokens).code, Authenticate(header, tokens).message) && ctx == None
    ensures Authenticate(header, tokens).Pass? ==>
      (ctx.Some? <==> HasProfile(store.State(), Authenticate(header, tokens).claims.userId))
    ensures Authenticate(header, tokens).Pass? && ctx.None? ==> reply == Reply(404, "Tenant profile not found")
    ensures ctx.None? ==> rows == []
    ensures ctx.Some? ==>
      && reply.code == 200
      && ProfileRow(store.State(), ctx.value.tenant, Authenticate(header, tokens).claims.userId)
      && IsTop(rows, TenantMatches(store.State(), ctx.value.tenant, q, clk), ArrivalKey(store.State()), 200)
    ensures forall i :: 0 <= i < |rows| ==>
      && rows[i] in store.packages && store.packages[rows[i]].tenant in store.tenants
      && store.tenants[store.packages[rows[i]].tenant].user == Authenticate(header, tokens).claims.userId
  {
    rows := [];
    reply, ctx := GetTenantContext(store, header, tokens);
    if ctx.None? {
      return;
    }
    var db := store.State();
    var conds, vals := BuildTenantFilter(ctx.value.tenant, q, clk);
    var cands := PlainPackages(db, conds, vals, clk);
    assert cands == TenantMatches(db, ctx.value.tenant, q, clk);
    rows := SelectTop(cands, ArrivalKey(db), 200);
  }

  /** GET /packages/:id/logs: 404 for an unknown package, 403 for another
      tenant's package, otherwise every entry of the package (whose author
      still has a staff row), newest first. */
  method PackageLogs(store: Store, header: Option<string>, tokens: map<string, Claims>, id: PackageId)
    returns (reply: Reply, entries: seq<LogEntry>)
    ensures Authenticate(header, tokens).Deny? ==>
      reply == Reply(Authenticate(header, tokens).code, Authenticate(header, tokens).message)
    ensures Authenticate(header, tokens).Pass? && !HasProfile(store.State(), Authenticate(header, tokens).claims.userId) ==>
      reply == Reply(404, "Tenant profile not found")
    ensures Authenticate(header, tokens).Pass? && HasProfile(store.State(), Authenticate(header, tokens).claims.userId)
            && id !in store.packages ==>
      reply == Reply(404, "Package not found")
    ensures Authenticate(header, tokens).Pass? && HasProfile(store.State(), Authenticate(header, tokens).claims.userId)
            && id in store.packages
            && !ProfileRow(store.State(), store.packages[id].tenant, Authenticate(header, tokens).claims.userId) ==>
      reply == Reply(403, "Forbidden")
    ensures Authenticate(header, tokens).Pass? && Consistent(store.State()) && id in store.packages
            && ProfileRow(store.State(), store.packages[id].tenant, Authenticate(header, tokens).claims.userId) ==>
      reply.code == 200
    ensures reply.code != 200 ==> entries == []
    ensures reply.code == 404 ==> reply.message in {"Package not found", "Tenant profile not found"}
    ensures reply.code == 404 && reply.message == "Package not found" ==> id !in store.packages
    ensures reply.code == 403 ==>
      && reply.message == "Forbidden" && id in store.packages
      && exists t :: ProfileRow(store.State(), t, Authenticate(header, tokens).claims.userId) && store.packages[id].tenant != t
    ensures reply.code == 200 ==>
      && id in store.packages
      && ProfileRow(store.State(), store.packages[id].tenant, Authenticate(header, tokens).claims.userId)
      && (forall e :: e in entries <==> e in store.log && e.package == id && e.staff in store.staff)
      && (forall i, j :: 0 <= i < j < |entries| ==> entries[i].time >= entries[j].time)
      && (forall i, j :: 0 <= i < j < |entries| ==> entries[i] != entries[j])
  {
    entries := [];
    var ctx;
    reply, ctx := GetTenantContext(store, header, tokens);
    if ctx.None? {
      return;
    }
    if id !in store.packages {
      return Reply(404, "Package not found"), entries;
    }
    var owner := store.packages[id].tenant;
    if Consistent(store.State()) && ProfileRow(store.State(), owner, Authenticate(header, tokens).claims.userId) {
      ContextUnique(store.State(), Authenticate(header, tokens).claims.userId, owner, ctx.value.tenant);
    }
    if owner != ctx.value.tenant {
      return Reply(403, "Forbidden"), entries;
    }
    var cands := set e | e in store.log && e.package == id && e.staff in store.staff;
    entries := SelectTop(cands, EntryTime, |cands|);
    TopAll(entries, cands, EntryTime);
    reply := Reply(200, "");
  }

  /** A tenant never sees another tenant's history: a 200 from the logs
      route means the package belongs to a tenant row of the caller's account. */
  lemma LogsOwnership(db: Db, user: UserId, id: PackageId, t: TenantId)
    requires Consistent(db) && ProfileRow(db, t, user) && id in db.packages
    requires ProfileRow(db, db.packages[id].tenant, user)
    ensures db.packages[id].tenant == t
  {
    ContextUnique(db, user, t, db.packages[id].tenant);
  }

  /** The outcome of the PUT /profile checks. */
  datatype ProfileEdit = Rejected(message: string) | Edit(phone: Option<string>, email: Option<string>)

  /** The PUT /profile checks, in the handler's order, building the list of
      columns to update. An absent field is left alone; a present one is
      trimmed and validated. */
  method BuildProfileUpdate(phone: Option<string>, email: Option<string>) returns (r: ProfileEdit)
    ensures phone.Some? && !PhoneOk(phone.value) ==> r == Rejected("Phone must be 1-32 characters")
    ensures (phone.None? || PhoneOk(phone.value)) && email.Some? && !MatchesEmailPattern(Trim(email.value)) ==>
      r == Rejected("Invalid email format")
    ensures phone.None? && email.None? ==> r == Rejected("Nothing to update")
    ensures r.Edit? <==>
      && (phone.Some? || email.Some?)
      && (phone.Some? ==> PhoneOk(phone.value))
      && (email.Some? ==> MatchesEmailPattern(Trim(email.value)))
    ensures r.Edit? ==>
      && r.phone == (if phone.Some? then Some(Trim(phone.value)) else None)
      && r.email == (if email.Some? then Some(Trim(email.value)) else None)
  {
    var updates: seq<string> := [];
    var newPhone: Option<string> := None;
    var newEmail: Option<string> := None;
    if phone.Some? {
      var trimmed := Trim(phone.value);
      if Utf16Length(trimmed) == 0 || Utf16Length(trimmed) > 32 {
        return Rejected("Phone must be 1-32 characters");
      }
      updates := updates + ["phone"];
      newPhone := Some(trimmed);
    }
    if email.Some? {
      var trimmed := Trim(email.value);
      EmailOkIffPattern(trimmed);
      if !EmailOk(trimmed) {
        return Rejected("Invalid email format");
      }
      updates := updates + ["email"];
      newEmail := Some(trimmed);
    }
    if |updates| == 0 {
      return Rejected("Nothing to update");
    }
    r := Edit(newPhone, newEmail);
  }

  /** PUT /profile: the checks, then one update of the caller's tenant row;
      the reply carries the context with the changed fields replaced, which
      is exactly the profile the new state holds. */
  method UpdateProfile(store: Store, header: Option<string>, tokens: map<string, Claims>, phone: Option<string>, email: Option<string>)
    returns (reply: Reply, profile: Option<Context>)
    modifies store
    ensures Authenticate(header, tokens).Deny? ==>
      reply == Reply(Authenticate(header, tokens).code, Authenticate(header, tokens).message)
    ensures Authenticate(header, tokens).Pass? && !HasProfile(old(store.State()), Authenticate(header, tokens).claims.userId) ==>
      reply == Reply(404, "Tenant profile not found")
    ensures Authenticate(header, tokens).Pass? && HasProfile(old(store.State()), Authenticate(header, tokens).claims.userId) ==>
      && reply.code in {200, 400}
      && (reply.code == 400 <==>
            || (phone.None? && email.None?)
            || (phone.Some? && !PhoneOk(phone.value))
            || (email.Some? && !MatchesEmailPattern(Trim(email.value))))
    ensures reply.code != 200 ==> store.State() == old(store.State()) && profile == None
    ensures reply.code == 400 && phone.Some? && !PhoneOk(phone.value) ==>
      reply.message == "Phone must be 1-32 characters"
    ensures reply.code == 400 && (phone.None? || PhoneOk(phone.value)) && email.Some? && !MatchesEmailPattern(Trim(email.value)) ==>
      reply.message == "Invalid email format"
    ensures reply.code == 400 && phone.None? && email.None? ==> reply.message == "Nothing to update"
    ensures reply.code == 200 ==>
      && profile.Some?
      && var t := profile.value.tenant;
      && ProfileRow(old(store.State()), t, Authenticate(header, tokens).claims.userId)
      && (phone.Some? || email.Some?)
      && (phone.Some? ==> PhoneOk(phone.value) && profile.value.phone == Some(Trim(phone.value)))
      && (email.Some? ==> MatchesEmailPattern(Trim(email.value)) && profile.value.email == Some(Trim(email.value)))
      && (phone.None? ==> profile.value.phone == old(store.tenants)[t].phone)
      && (email.None? ==> profile.value.email == old(store.tenants)[t].email)
      && store.State() == Contacted(old(store.State()), t, profile.value.phone, profile.value.email)
      && ProfileRow(store.State(), t, Authenticate(header, tokens).claims.userId)
      && profile.value == ContextOf(store.State(), t)
    ensures Consistent(old(store.State())) ==> Consistent(store.State())
    ensures HistoryAgrees(old(store.State())) ==> HistoryAgrees(store.State())
  {
    profile := None;
    var ctx;
    reply, ctx := GetTenantContext(store, header, tokens);
    if ctx.None? {
      return;
    }
    var edit := BuildProfileUpdate(phone, email);
    if edit.Rejected? {
      return Reply(400, edit.message), None;
    }
    var t := ctx.value.tenant;
    ghost var before := store.State();
    var p := ctx.value;
    if edit.phone.Some? {
      p := p.(phone := edit.phone);
    }
    if edit.email.Some? {
      p := p.(email := edit.email);
    }
    store.UpdateTenantContact(t, edit.phone, edit.email);
    assert store.State() == Contacted(before, t, p.phone, p.email);
    ContactedSound(before, t, p.phone, p.email);
    reply, profile := Reply(200, ""), Some(p);
  }
}
