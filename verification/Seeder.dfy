/** The seed's main, phase by phase, against the list of calls it is meant to make. */
module Seeder {
  import opened Basics
  import opened Entities
  import opened SeedConfig
  import opened Columns
  import opened Rotation
  import opened Blocks
  import opened Steps
  import opened Plan
  import opened Run
  import opened Recovery
  import opened Restart
  import opened Histories
  import opened Guarantees
  import opened Effects
  import opened Database

  /** From store s with journal j, the calls were made in order: all of them, or all up to
      the one that threw. */
  ghost predicate Ran(s: Store, j: seq<Step>, calls: seq<Step>, t: Store, k: seq<Step>, r: Outcome<DbError>) {
    match r
    case Pass => k == j + calls && Play(s, calls) == Ok(t)
    case Fail(e) => exists n :: 0 <= n < |calls| && StoppedAt(s, j, calls, t, k, e, n)
  }

  ghost predicate StoppedAt(s: Store, j: seq<Step>, calls: seq<Step>, t: Store, k: seq<Step>, e: DbError, n: nat)
    requires n < |calls|
  {
    k == j + calls[..n] && Play(s, calls[..n]) == Ok(t) && Exec(t, calls[n]) == Err(e)
  }

  lemma RanThen(s: Store, j: seq<Step>, a: seq<Step>, t: Store, k: seq<Step>, b: seq<Step>, u: Store, l: seq<Step>,
                r: Outcome<DbError>)
    requires Ran(s, j, a, t, k, Pass) && Ran(t, k, b, u, l, r)
    ensures Ran(s, j, a + b, u, l, r)
  {
    if r.Pass? {
      PlayOnward(s, a, t, b);
      assert j + a + b == j + (a + b);
    } else {
      var n :| 0 <= n < |b| && StoppedAt(t, k, b, u, l, r.error, n);
      ThenStopped(s, j, a, t, k, b, u, l, r.error, n);
    }
  }

  lemma ThenStopped(s: Store, j: seq<Step>, a: seq<Step>, t: Store, k: seq<Step>, b: seq<Step>, u: Store, l: seq<Step>,
                    e: DbError, n: nat)
    requires k == j + a && Play(s, a) == Ok(t) && n < |b| && StoppedAt(t, k, b, u, l, e, n)
    ensures StoppedAt(s, j, a + b, u, l, e, |a| + n)
  {
    assert (a + b)[..|a| + n] == a + b[..n];
    PlayOnward(s, a, t, b[..n]);
    assert j + a + b[..n] == j + (a + b[..n]);
  }

  lemma RanShort(s: Store, j: seq<Step>, a: seq<Step>, b: seq<Step>, t: Store, k: seq<Step>, r: Outcome<DbError>)
    requires Ran(s, j, a, t, k, r) && r.Fail?
    ensures Ran(s, j, a + b, t, k, r)
  {
    var n :| 0 <= n < |a| && StoppedAt(s, j, a, t, k, r.error, n);
    assert (a + b)[..n] == a[..n];
    assert StoppedAt(s, j, a + b, t, k, r.error, n);
  }

  lemma RanOne(s: Store, j: seq<Step>, step: Step, t: Store, k: seq<Step>, r: Outcome<DbError>)
    requires Called(s, j, step, t, k, r)
    ensures Ran(s, j, [step], t, k, r)
  {
    PlayOne(s, [], step);
    assert [] + [step] == [step];
    if r.Fail? {
      assert [step][..0] == [];
      assert StoppedAt(s, j, [step], t, k, r.error, 0);
    }
  }

  ghost predicate Called(s: Store, j: seq<Step>, step: Step, t: Store, k: seq<Step>, r: Outcome<DbError>) {
    match r
    case Pass => Exec(s, step) == Ok(t) && k == j + [step]
    case Fail(e) => Exec(s, step) == Err(e) && t == s && k == j
  }

  lemma RanNext(s: Store, j: seq<Step>, a: seq<Step>, t: Store, k: seq<Step>, step: Step, u: Store, l: seq<Step>,
                r: Outcome<DbError>)
    requires Ran(s, j, a, t, k, Pass) && Called(t, k, step, u, l, r)
    ensures Ran(s, j, a + [step], u, l, r)
  {
    RanOne(t, k, step, u, l, r);
    RanThen(s, j, a, t, k, [step], u, l, r);
  }

  lemma RanNone(s: Store, j: seq<Step>)
    ensures Ran(s, j, [], s, j, Pass)
  {
  }

  // ----- A list of upserts, as far as a loop has come -----

  lemma {:induction false} UnitStepsSplit(list: seq<UnitEntry>, n: nat)
    requires n <= |list|
    ensures UnitSteps(list) == UnitSteps(list[..n]) + UnitSteps(list[n..])
  {
    if n == |list| {
      assert list[..n] == list && list[n..] == [];
    } else {
      var m := |list| - 1;
      UnitStepsSplit(list[..m], n);
      assert list[..m][..n] == list[..n] && list[..m][n..] == list[n..][..m - n];
    }
  }

  lemma UnitsShort(s: Store, j: seq<Step>, list: seq<UnitEntry>, n: nat, t: Store, k: seq<Step>, r: Outcome<DbError>)
    requires n <= |list| && r.Fail? && Ran(s, j, UnitSteps(list[..n]), t, k, r)
    ensures Ran(s, j, UnitSteps(list), t, k, r)
  {
    UnitStepsSplit(list, n);
    RanShort(s, j, UnitSteps(list[..n]), UnitSteps(list[n..]), t, k, r);
  }

  lemma UnitsNext(s: Store, j: seq<Step>, list: seq<UnitEntry>, n: nat, t: Store, k: seq<Step>, u: Store, l: seq<Step>,
                  r: Outcome<DbError>)
    requires n < |list| && Ran(s, j, UnitSteps(list[..n]), t, k, Pass) && Called(t, k, UpsertUnit(list[n]), u, l, r)
    ensures Ran(s, j, UnitSteps(list[..n + 1]), u, l, r)
  {
    assert list[..n + 1][..n] == list[..n];
    RanNext(s, j, UnitSteps(list[..n]), t, k, UpsertUnit(list[n]), u, l, r);
  }

  lemma RatesShort(s: Store, j: seq<Step>, list: seq<RateEntry>, n: nat, t: Store, k: seq<Step>, r: Outcome<DbError>)
    requires n <= |list| && r.Fail? && Ran(s, j, RateSteps(list[..n]), t, k, r)
    ensures Ran(s, j, RateSteps(list), t, k, r)
  {
    RateStepsSplit(list, n);
    RanShort(s, j, RateSteps(list[..n]), RateSteps(list[n..]), t, k, r);
  }

  lemma RatesNext(s: Store, j: seq<Step>, list: seq<RateEntry>, n: nat, t: Store, k: seq<Step>, u: Store, l: seq<Step>,
                  r: Outcome<DbError>)
    requires n < |list| && Ran(s, j, RateSteps(list[..n]), t, k, Pass) && Called(t, k, UpsertRate(list[n]), u, l, r)
    ensures Ran(s, j, RateSteps(list[..n + 1]), u, l, r)
  {
    assert list[..n + 1][..n] == list[..n];
    RanNext(s, j, RateSteps(list[..n]), t, k, UpsertRate(list[n]), u, l, r);
  }

  lemma {:induction false} RateStepsSplit(list: seq<RateEntry>, n: nat)
    requires n <= |list|
    ensures RateSteps(list) == RateSteps(list[..n]) + RateSteps(list[n..])
  {
    if n == |list| {
      assert list[..n] == list && list[n..] == [];
    } else {
      var m := |list| - 1;
      RateStepsSplit(list[..m], n);
      assert list[..m][..n] == list[..n] && list[..m][n..] == list[n..][..m - n];
    }
  }

  lemma {:induction false} RateEntriesSplit(listing: seq<string>, units: map<string, Unit>, days: seq<Day>, n: nat)
    requires n <= |listing|
    ensures RateEntries(listing[..n], units, days) <= RateEntries(listing, units, days)
  {
    if n == |listing| {
      assert listing[..n] == listing;
    } else {
      var m := |listing| - 1;
      RateEntriesSplit(listing[..m], units, days, n);
      assert listing[..m][..n] == listing[..n];
    }
  }

  // ----- Phases of main -----

  /** The permission upserts, awaited together: they commit in the order of the schedule. */
  method SeedPermissions(db: Client, order: seq<string>)
    modifies db
    ensures Ran(old(db.Snapshot()), old(db.journal), PermissionSteps(order), db.Snapshot(), db.journal, Pass)
  {
    ghost var s, j := db.Snapshot(), db.journal;
    RanNone(s, j);
    for i := 0 to |order|
      invariant Ran(s, j, PermissionSteps(order[..i]), db.Snapshot(), db.journal, Pass)
    {
      ghost var t, k := db.Snapshot(), db.journal;
      db.UpsertPermission(order[i]);
      RanNext(s, j, PermissionSteps(order[..i]), t, k, UpsertPermission(order[i]), db.Snapshot(), db.journal, Pass);
      assert order[..i + 1][..i] == order[..i];
    }
    assert order[..|order|] == order;
  }

  /** Roles, and their grants over the permissions read back. */
  method SeedAccess(db: Client, all: set<string>, staff: set<string>) returns (r: Outcome<DbError>)
    modifies db
    ensures Ran(old(db.Snapshot()), old(db.journal), AccessSteps(all, staff), db.Snapshot(), db.journal, r)
  {
    ghost var s, j := db.Snapshot(), db.journal;
    ghost var steps := AccessSteps(all, staff);
    RanNone(s, j);
    db.UpsertRole(ROLE_ENTRIES[0]);
    RanNext(s, j, [], s, j, steps[0], db.Snapshot(), db.journal, Pass);
    ghost var s1, j1 := db.Snapshot(), db.journal;
    db.UpsertRole(ROLE_ENTRIES[1]);
    RanNext(s, j, [] + [steps[0]], s1, j1, steps[1], db.Snapshot(), db.journal, Pass);
    ghost var s2, j2 := db.Snapshot(), db.journal;
    r := db.GrantAll(OWNER, all);
    RanNext(s, j, [] + [steps[0]] + [steps[1]], s2, j2, steps[2], db.Snapshot(), db.journal, r);
    if r.Fail? {
      RanShort(s, j, [] + [steps[0]] + [steps[1]] + [steps[2]], [steps[3]], db.Snapshot(), db.journal, r);
      assert [] + [steps[0]] + [steps[1]] + [steps[2]] + [steps[3]] == steps;
      return;
    }
    ghost var s3, j3 := db.Snapshot(), db.journal;
    r := db.GrantAll(STAFF, staff);
    RanNext(s, j, [] + [steps[0]] + [steps[1]] + [steps[2]], s3, j3, steps[3], db.Snapshot(), db.journal, r);
    assert [] + [steps[0]] + [steps[1]] + [steps[2]] + [steps[3]] == steps;
  }

  /** Find or create the city, then the property that refers to it. */
  method SeedPlace(db: Client, cfg: Config, e: Env) returns (r: Outcome<DbError>)
    requires CityChoice(db.Snapshot(), e.city)
    modifies db
    ensures Ran(old(db.Snapshot()), old(db.journal), PlaceSteps(cfg, e), db.Snapshot(), db.journal, r)
  {
    ghost var s, j := db.Snapshot(), db.journal;
    RanNone(s, j);
    var city := db.FindRootCity(e.city);
    if city == None {
      db.CreateCity(e.city);
      city := Some(e.city);
    } else {
      db.FoundCity(e.city);
    }
    RanNext(s, j, [], s, j, EnsureCity(e.city), db.Snapshot(), db.journal, Pass);
    ghost var s1, j1 := db.Snapshot(), db.journal;
    var entry := PropertyEntry(cfg.property, city.value, e.propertyStamp);
    r := db.UpsertProperty(entry);
    RanNext(s, j, [] + [EnsureCity(e.city)], s1, j1, UpsertProperty(entry), db.Snapshot(), db.journal, r);
    assert [] + [EnsureCity(e.city)] + [UpsertProperty(entry)] == PlaceSteps(cfg, e);
  }

  /** The loop over the demo units. */
  method SeedDemoUnits(db: Client, cfg: Config, e: Env) returns (r: Outcome<DbError>)
    modifies db
    ensures Ran(old(db.Snapshot()), old(db.journal), UnitSteps(UnitEntries(cfg, e)[1..]), db.Snapshot(), db.journal, r)
  {
    ghost var s, j := db.Snapshot(), db.journal;
    ghost var entries := UnitEntries(cfg, e)[1..];
    RanNone(s, j);
    r := Pass;
    for i := 0 to |cfg.demoUnits|
      invariant r == Pass
      invariant Ran(s, j, UnitSteps(entries[..i]), db.Snapshot(), db.journal, Pass)
    {
      ghost var t, k := db.Snapshot(), db.journal;
      var entry := UnitEntry(cfg.demoUnits[i], e.unitStamp(cfg.demoUnits[i].code));
      r := db.UpsertUnit(entry);
      assert entries[i] == entry;
      UnitsNext(s, j, entries, i, t, k, db.Snapshot(), db.journal, r);
      if r.Fail? {
        UnitsShort(s, j, entries, i + 1, db.Snapshot(), db.journal, r);
        return;
      }
    }
    assert entries[..|cfg.demoUnits|] == entries;
  }

  /** The flagship unit, then the demo units. */
  method SeedUnits(db: Client, cfg: Config, e: Env) returns (r: Outcome<DbError>)
    modifies db
    ensures Ran(old(db.Snapshot()), old(db.journal), UnitSteps(UnitEntries(cfg, e)), db.Snapshot(), db.journal, r)
  {
    ghost var s, j := db.Snapshot(), db.journal;
    ghost var entries := UnitEntries(cfg, e);
    var flagship := UnitEntry(cfg.flagship, e.unitStamp(cfg.flagship.code));
    r := db.UpsertUnit(flagship);
    RanOne(s, j, UpsertUnit(flagship), db.Snapshot(), db.journal, r);
    FlagshipFirst(cfg, e);
    if r.Fail? {
      RanShort(s, j, [UpsertUnit(flagship)], UnitSteps(entries[1..]), db.Snapshot(), db.journal, r);
      return;
    }
    ghost var t, k := db.Snapshot(), db.journal;
    r := SeedDemoUnits(db, cfg, e);
    RanThen(s, j, [UpsertUnit(flagship)], t, k, UnitSteps(entries[1..]), db.Snapshot(), db.journal, r);
  }

  lemma FlagshipFirst(cfg: Config, e: Env)
    ensures var entries := UnitEntries(cfg, e);
            UnitSteps(entries)
            == [UpsertUnit(UnitEntry(cfg.flagship, e.unitStamp(cfg.flagship.code)))] + UnitSteps(entries[1..])
  {
    var entries := UnitEntries(cfg, e);
    var flagship := UnitEntry(cfg.flagship, e.unitStamp(cfg.flagship.code));
    assert entries[..1] == [flagship] && entries[..1][..0] == [];
    assert UnitSteps(entries[..1]) == [] + [UpsertUnit(flagship)];
    UnitStepsSplit(entries, 1);
  }

  /** The media upserts; returns the items pushed, in order. */
  method SeedMedia(db: Client, cfg: Config) returns (mediaItems: seq<string>)
    modifies db
    ensures mediaItems == MediaKeys(cfg)
    ensures Ran(old(db.Snapshot()), old(db.journal), MediaSteps(cfg.images), db.Snapshot(), db.journal, Pass)
  {
    ghost var s, j := db.Snapshot(), db.journal;
    RanNone(s, j);
    mediaItems := [];
    for index := 0 to |cfg.images|
      invariant mediaItems == MediaKeys(cfg)[..index]
      invariant Ran(s, j, MediaSteps(cfg.images[..index]), db.Snapshot(), db.journal, Pass)
    {
      ghost var t, k := db.Snapshot(), db.journal;
      var image := cfg.images[index];
      db.UpsertMedia(image);
      mediaItems := mediaItems + [image.storageKey];
      RanNext(s, j, MediaSteps(cfg.images[..index]), t, k, UpsertMedia(image), db.Snapshot(), db.journal, Pass);
      assert cfg.images[..index + 1][..index] == cfg.images[..index];
    }
    assert cfg.images[..|cfg.images|] == cfg.images;
  }

  /** Delete the galleries of the listed units, then insert them afresh. */
  method SeedGallery(db: Client, cfg: Config, allUnits: seq<string>, mediaItems: seq<string>)
      returns (r: Outcome<DbError>)
    requires mediaItems == MediaKeys(cfg)
    modifies db
    ensures Ran(old(db.Snapshot()), old(db.journal), GallerySteps(allUnits, cfg), db.Snapshot(), db.journal, r)
  {
    ghost var s, j := db.Snapshot(), db.journal;
    RanNone(s, j);
    db.DeleteUnitMedia(allUnits);
    RanNext(s, j, [], s, j, ClearUnitMedia(allUnits), db.Snapshot(), db.journal, Pass);
    ghost var s1, j1 := db.Snapshot(), db.journal;
    var rows := MediaRows(allUnits, mediaItems);
    r := db.CreateUnitMedia(rows);
    RanNext(s, j, [] + [ClearUnitMedia(allUnits)], s1, j1, CreateUnitMedia(rows), db.Snapshot(), db.journal, r);
    assert [] + [ClearUnitMedia(allUnits)] + [CreateUnitMedia(rows)] == GallerySteps(allUnits, cfg);
  }

  /** Delete the seeded blocks, then insert them afresh. */
  method SeedBlocks(db: Client, cfg: Config, allUnits: seq<string>) returns (r: Outcome<DbError>)
    modifies db
    ensures Ran(old(db.Snapshot()), old(db.journal), BlockSteps(allUnits, cfg), db.Snapshot(), db.journal, r)
  {
    ghost var s, j := db.Snapshot(), db.journal;
    RanNone(s, j);
    db.DeleteSeededBlocks();
    RanNext(s, j, [], s, j, ClearBlocks, db.Snapshot(), db.journal, Pass);
    ghost var s1, j1 := db.Snapshot(), db.journal;
    var rows := BlockRows(allUnits, cfg.templates);
    r := db.CreateBlocks(rows);
    RanNext(s, j, [] + [ClearBlocks], s1, j1, CreateBlocks(rows), db.Snapshot(), db.journal, r);
    assert [] + [ClearBlocks] + [CreateBlocks(rows)] == BlockSteps(allUnits, cfg);
  }

  /** One unit's rates. */
  method SeedDayRates(db: Client, unit: string, base: int, days: seq<Day>) returns (r: Outcome<DbError>)
    modifies db
    ensures Ran(old(db.Snapshot()), old(db.journal), RateSteps(DayRates(unit, base, days)),
                db.Snapshot(), db.journal, r)
  {
    ghost var s, j := db.Snapshot(), db.journal;
    ghost var entries := DayRates(unit, base, days);
    RanNone(s, j);
    r := Pass;
    for i := 0 to |days|
      invariant r == Pass
      invariant Ran(s, j, RateSteps(entries[..i]), db.Snapshot(), db.journal, Pass)
    {
      ghost var t, k := db.Snapshot(), db.journal;
      var entry := RateEntry(unit, days[i].date, Scaled(base, days[i].percent));
      r := db.UpsertRate(entry);
      assert entries[i] == entry;
      RatesNext(s, j, entries, i, t, k, db.Snapshot(), db.journal, r);
      if r.Fail? {
        RatesShort(s, j, entries, i + 1, db.Snapshot(), db.journal, r);
        return;
      }
    }
    assert entries[..|days|] == entries;
  }

  lemma {:induction false} RateStepsAppend(a: seq<RateEntry>, b: seq<RateEntry>)
    ensures RateSteps(a + b) == RateSteps(a) + RateSteps(b)
  {
    RateStepsSplit(a + b, |a|);
    assert (a + b)[..|a|] == a && (a + b)[|a|..] == b;
  }

  lemma UnitRatesShort(s: Store, j: seq<Step>, listing: seq<string>, units: map<string, Unit>, days: seq<Day>, n: nat,
                       t: Store, k: seq<Step>, r: Outcome<DbError>)
    requires n <= |listing| && r.Fail? && Ran(s, j, RateSteps(RateEntries(listing[..n], units, days)), t, k, r)
    ensures Ran(s, j, RateSteps(RateEntries(listing, units, days)), t, k, r)
  {
    RateEntriesSplit(listing, units, days, n);
    var done, all := RateEntries(listing[..n], units, days), RateEntries(listing, units, days);
    RateStepsAppend(done, all[|done|..]);
    assert all == done + all[|done|..];
    RanShort(s, j, RateSteps(done), RateSteps(all[|done|..]), t, k, r);
  }

  /** The loop over units around the loop over dates. */
  method SeedRates(db: Client, allUnits: seq<string>, fetched: map<string, Unit>, days: seq<Day>)
      returns (r: Outcome<DbError>)
    modifies db
    ensures Ran(old(db.Snapshot()), old(db.journal), RateSteps(RateEntries(allUnits, fetched, days)),
                db.Snapshot(), db.journal, r)
  {
    ghost var s, j := db.Snapshot(), db.journal;
    RanNone(s, j);
    r := Pass;
    for i := 0 to |allUnits|
      invariant r == Pass
      invariant Ran(s, j, RateSteps(RateEntries(allUnits[..i], fetched, days)), db.Snapshot(), db.journal, Pass)
    {
      ghost var t, k := db.Snapshot(), db.journal;
      ghost var done := RateEntries(allUnits[..i], fetched, days);
      ghost var row := DayRates(allUnits[i], BasePrice(fetched, allUnits[i]), days);
      r := SeedDayRates(db, allUnits[i], BasePrice(fetched, allUnits[i]), days);
      RanThen(s, j, RateSteps(done), t, k, RateSteps(row), db.Snapshot(), db.journal, r);
      RateStepsAppend(done, row);
      assert allUnits[..i + 1][..i] == allUnits[..i];
      if r.Fail? {
        UnitRatesShort(s, j, allUnits, fetched, days, i + 1, db.Snapshot(), db.journal, r);
        return;
      }
    }
    assert allUnits[..|allUnits|] == allUnits;
  }

  /** The administrator, when both variables are set. */
  method SeedAdmin(db: Client, cfg: Config, e: Env) returns (r: Outcome<DbError>)
    modifies db
    ensures Ran(old(db.Snapshot()), old(db.journal), AdminSteps(cfg, e), db.Snapshot(), db.journal, r)
  {
    ghost var s, j := db.Snapshot(), db.journal;
    RanNone(s, j);
    match Admin(cfg) {
      case None => r := Pass;
      case Some(admin) =>
        ghost var a, b := UpsertAdmin(admin, e.passwordHash), GrantRole(admin.email, OWNER);
        r := db.UpsertAdmin(admin, e.passwordHash);
        RanNext(s, j, [], s, j, a, db.Snapshot(), db.journal, r);
        assert [] + [a] + [b] == AdminSteps(cfg, e);
        if r.Fail? {
          RanShort(s, j, [] + [a], [b], db.Snapshot(), db.journal, r);
          return;
        }
        ghost var s1, j1 := db.Snapshot(), db.journal;
        r := db.GrantRole(admin.email, OWNER);
        RanNext(s, j, [] + [a], s1, j1, b, db.Snapshot(), db.journal, r);
    }
  }

  // ----- main -----

  /** Everything up to the last unit upsert. The permissions granted are those read back. */
  method Setup(db: Client, cfg: Config, e: Env, order: seq<string>) returns (r: Outcome<DbError>)
    requires WellFormed(cfg) && Schedule(order, cfg) && CityChoice(db.Snapshot(), e.city)
    modifies db
    ensures Ran(old(db.Snapshot()), old(db.journal), SetupScript(old(db.Snapshot()), cfg, e, order),
                db.Snapshot(), db.journal, r)
  {
    ghost var s, j := db.Snapshot(), db.journal;
    SeedPermissions(db, order);
    PermissionsConfluent(s, cfg, order);
    ghost var a := PermissionSteps(order);
    ghost var s1, j1 := db.Snapshot(), db.journal;
    var all := db.permissions.Keys;
    var staff := set p | p in all && p in cfg.staffCodes;
    assert all == AllPermissions(s, cfg) && staff == StaffPermissions(s, cfg);
    ghost var b, c, d := AccessSteps(all, staff), PlaceSteps(cfg, e), UnitSteps(UnitEntries(cfg, e));
    PlayAccess(s, s1, cfg);
    r := SeedAccess(db, all, staff);
    RanThen(s, j, a, s1, j1, b, db.Snapshot(), db.journal, r);
    if r.Fail? {
      RanShort(s, j, a + b, c, db.Snapshot(), db.journal, r);
      RanShort(s, j, a + b + c, d, db.Snapshot(), db.journal, r);
      return;
    }
    ghost var s2, j2 := db.Snapshot(), db.journal;
    r := SeedPlace(db, cfg, e);
    RanThen(s, j, a + b, s2, j2, c, db.Snapshot(), db.journal, r);
    if r.Fail? {
      RanShort(s, j, a + b + c, d, db.Snapshot(), db.journal, r);
      return;
    }
    ghost var s3, j3 := db.Snapshot(), db.journal;
    r := SeedUnits(db, cfg, e);
    RanThen(s, j, a + b + c, s3, j3, d, db.Snapshot(), db.journal, r);
  }

  /** Everything computed from the listed units. */
  method Derive(db: Client, cfg: Config, e: Env, allUnits: seq<string>, fetched: map<string, Unit>)
      returns (r: Outcome<DbError>)
    modifies db
    ensures Ran(old(db.Snapshot()), old(db.journal), DerivedScript(allUnits, fetched, cfg, e),
                db.Snapshot(), db.journal, r)
  {
    ghost var s, j := db.Snapshot(), db.journal;
    ghost var a, b, c := MediaSteps(cfg.images), GallerySteps(allUnits, cfg), BlockSteps(allUnits, cfg);
    ghost var d, f := RateSteps(RateEntries(allUnits, fetched, cfg.days)), AdminSteps(cfg, e);
    var mediaItems := SeedMedia(db, cfg);
    ghost var s1, j1 := db.Snapshot(), db.journal;
    r := SeedGallery(db, cfg, allUnits, mediaItems);
    RanThen(s, j, a, s1, j1, b, db.Snapshot(), db.journal, r);
    if r.Fail? {
      RanShort(s, j, a + b, c, db.Snapshot(), db.journal, r);
      RanShort(s, j, a + b + c, d, db.Snapshot(), db.journal, r);
      RanShort(s, j, a + b + c + d, f, db.Snapshot(), db.journal, r);
      return;
    }
    ghost var s2, j2 := db.Snapshot(), db.journal;
    r := SeedBlocks(db, cfg, allUnits);
    RanThen(s, j, a + b, s2, j2, c, db.Snapshot(), db.journal, r);
    if r.Fail? {
      RanShort(s, j, a + b + c, d, db.Snapshot(), db.journal, r);
      RanShort(s, j, a + b + c + d, f, db.Snapshot(), db.journal, r);
      return;
    }
    ghost var s3, j3 := db.Snapshot(), db.journal;
    r := SeedRates(db, allUnits, fetched, cfg.days);
    RanThen(s, j, a + b + c, s3, j3, d, db.Snapshot(), db.journal, r);
    if r.Fail? {
      RanShort(s, j, a + b + c + d, f, db.Snapshot(), db.journal, r);
      return;
    }
    ghost var s4, j4 := db.Snapshot(), db.journal;
    r := SeedAdmin(db, cfg, e);
    RanThen(s, j, a + b + c + d, s4, j4, f, db.Snapshot(), db.journal, r);
  }

  /** A run of the calls of a script ends as the script's verdict says. */
  lemma RanVerdict(s: Store, j: seq<Step>, calls: seq<Step>, t: Store, k: seq<Step>, r: Outcome<DbError>)
    requires Ran(s, j, calls, t, k, r)
    ensures Play(s, calls) == match r case Pass => Ok(t) case Fail(e) => Err(e)
  {
    if r.Fail? {
      var n :| 0 <= n < |calls| && StoppedAt(s, j, calls, t, k, r.error, n);
      PlayStops(s, calls, n);
    }
  }

  lemma RanPrefix(s: Store, j: seq<Step>, calls: seq<Step>, t: Store, k: seq<Step>, r: Outcome<DbError>)
    requires Ran(s, j, calls, t, k, r)
    ensures |j| <= |k| <= |j| + |calls| && Play(s, calls[..|k| - |j|]) == Ok(t)
  {
    if r.Pass? {
      assert calls[..|calls|] == calls;
    } else {
      var n :| 0 <= n < |calls| && StoppedAt(s, j, calls, t, k, r.error, n);
      assert |k| - |j| == n;
    }
  }

  /** However a run ended, it is an attempt that a later run can take up. */
  lemma RanIsAttempt(s: Store, cfg: Config, e: Env, order: seq<string>, j: seq<Step>, t: Store, k: seq<Step>,
                     r: Outcome<DbError>)
    requires Schedule(order, cfg) && CityChoice(s, e.city) && Ran(s, j, Script(s, cfg, e, order), t, k, r)
    ensures |k| >= |j| && var a := Attempt(e, order, |k| - |j|); Stops(s, cfg, a) && Left(s, cfg, a) == t
  {
    RanPrefix(s, j, Script(s, cfg, e, order), t, k, r);
  }

  /** Wherever a run ended, what lies outside the seed's reach is as it was. */
  lemma RanFrame(s: Store, cfg: Config, e: Env, order: seq<string>, j: seq<Step>, t: Store, k: seq<Step>,
                 r: Outcome<DbError>)
    requires WellFormed(cfg) && Schedule(order, cfg) && CityChoice(s, e.city)
    requires Ran(s, j, Script(s, cfg, e, order), t, k, r)
    ensures Between(s, t, cfg, e) && Frame(s, t, cfg)
  {
    RanPrefix(s, j, Script(s, cfg, e, order), t, k, r);
    StoppedRun(s, cfg, e, order, |k| - |j|);
    BetweenFrame(s, t, cfg, e);
  }

  lemma PlannedListed(s: Store, cfg: Config, e: Env)
    requires WellFormed(cfg)
    ensures Listed(Listing(TargetUnits(s, cfg, e), cfg), TargetUnits(s, cfg, e), cfg.less)
  {
    ListingExact(s, cfg, e);
  }

  lemma RanMain(s: Store, cfg: Config, e: Env, order: seq<string>, j: seq<Step>, t: Store, k: seq<Step>,
                r: Outcome<DbError>)
    requires WellFormed(cfg) && Schedule(order, cfg) && CityChoice(s, e.city)
    requires Ran(s, j, Script(s, cfg, e, order), t, k, r)
    ensures Verdict(s, cfg, e) == match r case Pass => Ok(t) case Fail(x) => Err(x)
    ensures r.Pass? <==> Completable(s, cfg)
    ensures r.Pass? ==> t == Target(s, cfg, e)
    ensures Ends(s, match r case Pass => Ok(t) case Fail(x) => Err(x), cfg, e)
    ensures Frame(s, t, cfg)
    ensures |k| >= |j| && var a := Attempt(e, order, |k| - |j|); Stops(s, cfg, a) && Left(s, cfg, a) == t
  {
    RanVerdict(s, j, Script(s, cfg, e, order), t, k, r);
    RanFrame(s, cfg, e, order, j, t, k, r);
    RanIsAttempt(s, cfg, e, order, j, t, k, r);
    RunOutcome(s, cfg, e, order);
    CityChoiceIsAnswer(s, e.city);
    RunEnds(s, cfg, e, order);
  }

  /** prisma/seed.ts main. It makes exactly the calls of the script, reaches the target exactly
      when the store is completable, and otherwise stops where the script first throws. */
  method SeedAll(db: Client, cfg: Config, e: Env, order: seq<string>) returns (r: Outcome<DbError>)
    requires WellFormed(cfg) && Schedule(order, cfg) && CityChoice(db.Snapshot(), e.city)
    modifies db
    ensures Ran(old(db.Snapshot()), old(db.journal), Script(old(db.Snapshot()), cfg, e, order),
                db.Snapshot(), db.journal, r)
    ensures Verdict(old(db.Snapshot()), cfg, e) == match r case Pass => Ok(db.Snapshot()) case Fail(x) => Err(x)
    ensures r.Pass? <==> Completable(old(db.Snapshot()), cfg)
    ensures r.Pass? ==> db.Snapshot() == Target(old(db.Snapshot()), cfg, e)
    ensures Frame(old(db.Snapshot()), db.Snapshot(), cfg)
    ensures |db.journal| >= |old(db.journal)|
    ensures var a := Attempt(e, order, |db.journal| - |old(db.journal)|);
            Stops(old(db.Snapshot()), cfg, a) && Left(old(db.Snapshot()), cfg, a) == db.Snapshot()
    ensures Ends(old(db.Snapshot()), match r case Pass => Ok(db.Snapshot()) case Fail(x) => Err(x), cfg, e)
  {
    ghost var s, j := db.Snapshot(), db.journal;
    ghost var script := Script(s, cfg, e, order);
    ghost var setup := SetupScript(s, cfg, e, order);
    ghost var planned := TargetUnits(s, cfg, e);
    ghost var derived := DerivedScript(Listing(planned, cfg), planned, cfg, e);
    r := Setup(db, cfg, e, order);
    if r.Fail? {
      RanShort(s, j, setup, derived, db.Snapshot(), db.journal, r);
    } else {
      ghost var t, k := db.Snapshot(), db.journal;
      SetupOutcome(s, cfg, e, order);
      var allUnits := db.FindUnits(cfg.less);
      var fetched := db.units;
      PlannedListed(s, cfg, e);
      ListedOnce(allUnits, Listing(planned, cfg), planned, cfg.less);
      r := Derive(db, cfg, e, allUnits, fetched);
      RanThen(s, j, setup, t, k, derived, db.Snapshot(), db.journal, r);
    }
    RanMain(s, cfg, e, order, j, db.Snapshot(), db.journal, r);
  }
}
