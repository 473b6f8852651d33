/** Interrupted runs. A run may stop after any of its calls; whatever it leaves behind,
    a later complete run ends as one undisturbed run would have ended. */
module Recovery {
  import opened Basics
  import opened Entities
  import opened SeedConfig
  import opened Tables
  import opened Rotation
  import opened Blocks
  import opened Steps
  import opened Plan
  import opened Run

  // ----- Stores between the start and the end of a run -----

  ghost predicate AccessBetween(s: Store, permissions: map<string, Permission>, roles: map<string, Role>,
                                grants: set<(string, string)>, cfg: Config) {
    && Partial(s.permissions, permissions, Index(cfg.permissions, PermissionKey), PermissionRow)
    && Partial(s.roles, roles, Index(ROLE_ENTRIES, RoleKey), RoleRow)
    && s.grants <= grants <= TargetGrants(s, cfg)
  }

  ghost predicate PlaceBetween(s: Store, locations: map<int, Location>, properties: map<string, Property>,
                               cfg: Config, e: Env) {
    && CityChoice(s, e.city)
    && (locations == s.locations || (Roots(s.locations) == {} && locations == s.locations[e.city := CITY_ROW]))
    && Partial(s.properties, properties, PropertyEntries(cfg, e), PropertyRow)
    && (PROPERTY_SLUG in properties && PROPERTY_SLUG !in s.properties ==>
          e.city in locations && PropertyFree(s, cfg))
  }

  ghost predicate UnitsBetween(s: Store, units: map<string, Unit>, cfg: Config, e: Env) {
    && Partial(s.units, units, Index(UnitEntries(cfg, e), UnitKey), UnitRow)
    && forall u :: u in cfg.Units() && u.code in units && u.code !in s.units ==> !Taken(s.units, u)
  }

  ghost predicate KeyedBetween(s: Store, media: map<string, Media>, rates: map<(string, int), Rate>,
                               cfg: Config, e: Env) {
    var units := TargetUnits(s, cfg, e);
    && Partial(s.media, media, Index(cfg.images, MediaKey), MediaRow)
    && Partial(s.rates, rates, Index(RateEntries(Listing(units, cfg), units, cfg.days), RateKey), RateRow)
  }

  ghost predicate RebuiltBetween(s: Store, unitMedia: set<UnitMedia>, blocks: seq<Block>, cfg: Config, e: Env) {
    var listing := Listing(TargetUnits(s, cfg, e), cfg);
    Elsewhere(unitMedia, listing) == Elsewhere(s.unitMedia, listing) && Kept(blocks) == Kept(s.blocks)
  }

  ghost predicate DerivedBetween(s: Store, media: map<string, Media>, unitMedia: set<UnitMedia>, blocks: seq<Block>,
                                 rates: map<(string, int), Rate>, cfg: Config, e: Env) {
    KeyedBetween(s, media, rates, cfg, e) && RebuiltBetween(s, unitMedia, blocks, cfg, e)
  }

  ghost predicate AdminBetween(s: Store, users: map<string, User>, userRoles: set<(string, string)>,
                               cfg: Config, e: Env) {
    && (users == s.users || users == TargetUsers(s, cfg, e))
    && (userRoles == s.userRoles || userRoles == TargetUserRoles(s, cfg))
  }

  /** Each table of t is that of s with part of the run from s applied. The two tables that the
      run clears and refills are bounded from outside only: the galleries of the listed units and
      the seeded blocks are left free here. Windows.StoppedAtCall says what they hold. */
  ghost predicate Between(s: Store, t: Store, cfg: Config, e: Env) {
    && AccessBetween(s, t.permissions, t.roles, t.grants, cfg)
    && PlaceBetween(s, t.locations, t.properties, cfg, e)
    && UnitsBetween(s, t.units, cfg, e)
    && DerivedBetween(s, t.media, t.unitMedia, t.blocks, t.rates, cfg, e)
    && AdminBetween(s, t.users, t.userRoles, cfg, e)
  }

  lemma BetweenSelf(s: Store, cfg: Config, e: Env)
    requires CityChoice(s, e.city)
    ensures Between(s, s, cfg, e)
  {
  }

  // ----- Calls that belong to a run from s -----

  ghost predicate AccessLegit(s: Store, cfg: Config, step: Step) {
    match step
    case UpsertPermission(code) => code in cfg.permissions
    case UpsertRole(role) => role in ROLE_ENTRIES
    case GrantAll(roleCode, permissions) =>
      (roleCode == OWNER && permissions == AllPermissions(s, cfg))
      || (roleCode == STAFF && permissions == StaffPermissions(s, cfg))
    case _ => true
  }

  ghost predicate PlaceLegit(cfg: Config, e: Env, step: Step) {
    match step
    case EnsureCity(id) => id == e.city
    case UpsertProperty(property) => property == PropertyEntry(cfg.property, e.city, e.propertyStamp)
    case _ => true
  }

  ghost predicate UnitsLegit(cfg: Config, e: Env, step: Step) {
    step.UpsertUnit? ==> step.unit in UnitEntries(cfg, e)
  }

  ghost predicate DerivedLegit(s: Store, cfg: Config, e: Env, step: Step) {
    var units := TargetUnits(s, cfg, e);
    var listing := Listing(units, cfg);
    match step
    case UpsertMedia(image) => image in cfg.images
    case ClearUnitMedia(codes) => codes == listing
    case CreateUnitMedia(rows) => rows == MediaRows(listing, MediaKeys(cfg))
    case CreateBlocks(rows) => rows == BlockRows(listing, cfg.templates)
    case UpsertRate(rate) => rate in RateEntries(listing, units, cfg.days)
    case _ => true
  }

  ghost predicate AdminLegit(cfg: Config, e: Env, step: Step) {
    match step
    case UpsertAdmin(admin, hash) => Admin(cfg) == Some(admin) && hash == e.passwordHash
    case GrantRole(email, roleCode) => Admin(cfg).Some? && email == Admin(cfg).value.email && roleCode == OWNER
    case _ => true
  }

  ghost predicate Legit(s: Store, cfg: Config, e: Env, step: Step) {
    && AccessLegit(s, cfg, step)
    && PlaceLegit(cfg, e, step)
    && UnitsLegit(cfg, e, step)
    && DerivedLegit(s, cfg, e, step)
    && AdminLegit(cfg, e, step)
  }

  ghost predicate AllLegit(s: Store, cfg: Config, e: Env, steps: seq<Step>) {
    forall step :: step in steps ==> Legit(s, cfg, e, step)
  }

  lemma {:induction false} PermissionStepsLegit(s: Store, cfg: Config, e: Env, order: seq<string>)
    requires forall c :: c in order ==> c in cfg.permissions
    ensures AllLegit(s, cfg, e, PermissionSteps(order))
  {
    if order != [] {
      PermissionStepsLegit(s, cfg, e, order[..|order| - 1]);
    }
  }

  lemma {:induction false} UnitStepsLegit(s: Store, cfg: Config, e: Env, entries: seq<UnitEntry>)
    requires forall u :: u in entries ==> u in UnitEntries(cfg, e)
    ensures AllLegit(s, cfg, e, UnitSteps(entries))
  {
    if entries != [] {
      UnitStepsLegit(s, cfg, e, entries[..|entries| - 1]);
    }
  }

  lemma {:induction false} MediaStepsLegit(s: Store, cfg: Config, e: Env, images: seq<ImageSpec>)
    requires forall i :: i in images ==> i in cfg.images
    ensures AllLegit(s, cfg, e, MediaSteps(images))
  {
    if images != [] {
      MediaStepsLegit(s, cfg, e, images[..|images| - 1]);
    }
  }

  lemma {:induction false} RateStepsLegit(s: Store, cfg: Config, e: Env, entries: seq<RateEntry>)
    requires var units := TargetUnits(s, cfg, e);
             forall r :: r in entries ==> r in RateEntries(Listing(units, cfg), units, cfg.days)
    ensures AllLegit(s, cfg, e, RateSteps(entries))
  {
    if entries != [] {
      RateStepsLegit(s, cfg, e, entries[..|entries| - 1]);
    }
  }

  lemma AppendLegit(s: Store, cfg: Config, e: Env, a: seq<Step>, b: seq<Step>)
    requires AllLegit(s, cfg, e, a) && AllLegit(s, cfg, e, b)
    ensures AllLegit(s, cfg, e, a + b)
  {
  }

  lemma SetupLegit(s: Store, cfg: Config, e: Env, order: seq<string>)
    requires Schedule(order, cfg)
    ensures AllLegit(s, cfg, e, SetupScript(s, cfg, e, order))
  {
    SameElements(order, cfg.permissions);
    PermissionStepsLegit(s, cfg, e, order);
    UnitStepsLegit(s, cfg, e, UnitEntries(cfg, e));
    var access := AccessSteps(AllPermissions(s, cfg), StaffPermissions(s, cfg));
    AppendLegit(s, cfg, e, PermissionSteps(order), access);
    AppendLegit(s, cfg, e, PermissionSteps(order) + access, PlaceSteps(cfg, e));
    AppendLegit(s, cfg, e, PermissionSteps(order) + access + PlaceSteps(cfg, e), UnitSteps(UnitEntries(cfg, e)));
  }

  lemma FixturesLegit(s: Store, cfg: Config, e: Env)
    ensures var listing := Listing(TargetUnits(s, cfg, e), cfg);
            AllLegit(s, cfg, e, MediaSteps(cfg.images) + GallerySteps(listing, cfg) + BlockSteps(listing, cfg))
  {
    var listing := Listing(TargetUnits(s, cfg, e), cfg);
    MediaStepsLegit(s, cfg, e, cfg.images);
    AppendLegit(s, cfg, e, MediaSteps(cfg.images), GallerySteps(listing, cfg));
    AppendLegit(s, cfg, e, MediaSteps(cfg.images) + GallerySteps(listing, cfg), BlockSteps(listing, cfg));
  }

  lemma AdminLegitSteps(s: Store, cfg: Config, e: Env)
    ensures AllLegit(s, cfg, e, AdminSteps(cfg, e))
  {
  }

  lemma DerivedScriptLegit(s: Store, cfg: Config, e: Env)
    ensures var units := TargetUnits(s, cfg, e); AllLegit(s, cfg, e, DerivedScript(Listing(units, cfg), units, cfg, e))
  {
    var units := TargetUnits(s, cfg, e);
    var listing := Listing(units, cfg);
    var rates := RateSteps(RateEntries(listing, units, cfg.days));
    var fixtures := MediaSteps(cfg.images) + GallerySteps(listing, cfg) + BlockSteps(listing, cfg);
    FixturesLegit(s, cfg, e);
    RateStepsLegit(s, cfg, e, RateEntries(listing, units, cfg.days));
    AdminLegitSteps(s, cfg, e);
    AppendLegit(s, cfg, e, fixtures, rates);
    AppendLegit(s, cfg, e, fixtures + rates, AdminSteps(cfg, e));
  }

  lemma ScriptLegit(s: Store, cfg: Config, e: Env, order: seq<string>)
    requires Schedule(order, cfg)
    ensures AllLegit(s, cfg, e, Script(s, cfg, e, order))
  {
    var units := TargetUnits(s, cfg, e);
    SetupLegit(s, cfg, e, order);
    DerivedScriptLegit(s, cfg, e);
    AppendLegit(s, cfg, e, SetupScript(s, cfg, e, order), DerivedScript(Listing(units, cfg), units, cfg, e));
  }

  // ----- Entries agree -----

  lemma SelfAgreements(cfg: Config, rates: map<(string, int), RateEntry>)
    ensures var p := Index(cfg.permissions, PermissionKey); Agree(p, p, PermissionRow)
    ensures var r := Index(ROLE_ENTRIES, RoleKey); Agree(r, r, RoleRow)
    ensures var m := Index(cfg.images, MediaKey); Agree(m, m, MediaRow)
    ensures Agree(rates, rates, RateRow)
  {
  }

  lemma PropertiesAgree(cfg: Config, e1: Env, e2: Env)
    ensures Agree(PropertyEntries(cfg, e1), PropertyEntries(cfg, e2), PropertyRow)
  {
  }

  /** The unit entries of two environments differ in their stamps alone. */
  lemma UnitIndexShift(cfg: Config, a: Env, b: Env, c: string)
    requires WellFormed(cfg)
    ensures var x, y := Index(UnitEntries(cfg, a), UnitKey), Index(UnitEntries(cfg, b), UnitKey);
      && (c in x <==> c in y)
      && (c in x ==> x[c].at == a.unitStamp(c) && y[c] == x[c].(at := b.unitStamp(c)))
  {
    if c in Index(UnitEntries(cfg, a), UnitKey) {
      var i := UnitIndexOf(cfg, a, c);
      UnitIndexAt(cfg, b, i);
    } else if c in Index(UnitEntries(cfg, b), UnitKey) {
      var i := UnitIndexOf(cfg, b, c);
      UnitIndexAt(cfg, a, i);
    }
  }

  lemma UnitsAgree(cfg: Config, a: Env, b: Env)
    requires WellFormed(cfg)
    ensures Agree(Index(UnitEntries(cfg, a), UnitKey), Index(UnitEntries(cfg, b), UnitKey), UnitRow)
  {
    var x, y := Index(UnitEntries(cfg, a), UnitKey), Index(UnitEntries(cfg, b), UnitKey);
    forall c
      ensures c in x <==> c in y
      ensures c in x ==> y[c].spec == x[c].spec
    {
      UnitIndexShift(cfg, a, b, c);
    }
  }

  // ----- Every call of a run keeps the store between -----

  lemma AfterPermission(s: Store, cur: Store, cfg: Config, code: string)
    requires AccessBetween(s, cur.permissions, cur.roles, cur.grants, cfg) && code in cfg.permissions
    ensures AccessBetween(s, Upsert(cur.permissions, code, code, PermissionRow), cur.roles, cur.grants, cfg)
  {
    SelfAgreements(cfg, map[]);
    IndexKeys(cfg.permissions, PermissionKey);
    PartialUpsert(s.permissions, cur.permissions, Index(cfg.permissions, PermissionKey), PermissionRow, code);
  }

  lemma AfterRole(s: Store, cur: Store, cfg: Config, role: RoleEntry)
    requires AccessBetween(s, cur.permissions, cur.roles, cur.grants, cfg) && role in ROLE_ENTRIES
    ensures AccessBetween(s, cur.permissions, Upsert(cur.roles, role.code, role, RoleRow), cur.grants, cfg)
  {
    SelfAgreements(cfg, map[]);
    RoleIndex();
    PartialUpsert(s.roles, cur.roles, Index(ROLE_ENTRIES, RoleKey), RoleRow, role.code);
  }

  lemma AfterGrants(s: Store, cur: Store, cfg: Config, roleCode: string, permissions: set<string>)
    requires AccessBetween(s, cur.permissions, cur.roles, cur.grants, cfg)
    requires (roleCode == OWNER && permissions == AllPermissions(s, cfg))
             || (roleCode == STAFF && permissions == StaffPermissions(s, cfg))
    ensures AccessBetween(s, cur.permissions, cur.roles, cur.grants + (set p | p in permissions :: (roleCode, p)), cfg)
  {
  }

  lemma AfterProperty(s: Store, cur: Store, cfg: Config, e: Env)
    requires PlaceBetween(s, cur.locations, cur.properties, cfg, e)
    requires PROPERTY_SLUG in cur.properties
             || (!PropertyTaken(cur.properties, cfg.property.slugEn) && e.city in cur.locations)
    ensures var entry := PropertyEntry(cfg.property, e.city, e.propertyStamp);
            PlaceBetween(s, cur.locations, Upsert(cur.properties, PROPERTY_SLUG, entry, PropertyRow), cfg, e)
  {
    PropertiesAgree(cfg, e, e);
    PartialUpsert(s.properties, cur.properties, PropertyEntries(cfg, e), PropertyRow, PROPERTY_SLUG);
    PropertyTakenPersists(s.properties, cur.properties, PropertyEntries(cfg, e), cfg.property.slugEn);
  }

  lemma PropertyTakenPersists(t: map<string, Property>, u: map<string, Property>,
                              entries: map<string, PropertyEntry>, slugEn: string)
    requires Partial(t, u, entries, PropertyRow)
    ensures PropertyTaken(t, slugEn) ==> PropertyTaken(u, slugEn)
  {
  }

  lemma AfterUnit(s: Store, cur: Store, cfg: Config, e: Env, entry: UnitEntry)
    requires WellFormed(cfg) && UnitsBetween(s, cur.units, cfg, e) && entry in UnitEntries(cfg, e)
    requires entry.spec.code in cur.units || !Taken(cur.units, entry.spec)
    ensures UnitsBetween(s, Upsert(cur.units, entry.spec.code, entry, UnitRow), cfg, e)
  {
    var index := Index(UnitEntries(cfg, e), UnitKey);
    UnitEntriesConsistent(cfg, e);
    IndexAt(UnitEntries(cfg, e), UnitKey, entry);
    UnitsAgree(cfg, e, e);
    PartialUpsert(s.units, cur.units, index, UnitRow, entry.spec.code);
    TakenPersists(s.units, cur.units, index, entry.spec);
    SameCodeSameUnit(cfg, e, entry);
  }

  lemma AfterMedia(s: Store, cur: Store, cfg: Config, image: ImageSpec)
    requires WellFormed(cfg) && image in cfg.images
    requires Partial(s.media, cur.media, Index(cfg.images, MediaKey), MediaRow)
    ensures Partial(s.media, Upsert(cur.media, image.storageKey, image, MediaRow),
                    Index(cfg.images, MediaKey), MediaRow)
  {
    SelfAgreements(cfg, map[]);
    IndexAt(cfg.images, MediaKey, image);
    PartialUpsert(s.media, cur.media, Index(cfg.images, MediaKey), MediaRow, image.storageKey);
  }

  lemma AfterRate(t: map<(string, int), Rate>, u: map<(string, int), Rate>, cfg: Config,
                  entries: seq<RateEntry>, rate: RateEntry)
    requires Consistent(entries, RateKey) && rate in entries
    requires Partial(t, u, Index(entries, RateKey), RateRow)
    ensures Partial(t, Upsert(u, RateKey(rate), rate, RateRow), Index(entries, RateKey), RateRow)
  {
    SelfAgreements(cfg, Index(entries, RateKey));
    IndexAt(entries, RateKey, rate);
    PartialUpsert(t, u, Index(entries, RateKey), RateRow, RateKey(rate));
  }

  lemma GalleryElsewhere(table: set<UnitMedia>, listing: seq<string>, keys: seq<string>)
    ensures Elsewhere(Elsewhere(table, listing), listing) == Elsewhere(table, listing)
    ensures Elsewhere(table + RowSet(MediaRows(listing, keys)), listing) == Elsewhere(table, listing)
  {
    forall r | r in MediaRows(listing, keys)
      ensures r.unit in listing
    {
      var u, i := RowsAreAssigned(listing, keys, r);
    }
  }

  lemma AfterCity(s: Store, cur: Store, cfg: Config, e: Env)
    requires PlaceBetween(s, cur.locations, cur.properties, cfg, e)
    ensures PlaceBetween(s, if Roots(cur.locations) != {} then cur.locations else cur.locations[e.city := CITY_ROW],
                         cur.properties, cfg, e)
  {
  }

  lemma AfterAdmin(s: Store, cur: Store, cfg: Config, e: Env, admin: Credentials)
    requires AdminBetween(s, cur.users, cur.userRoles, cfg, e) && Admin(cfg) == Some(admin)
    ensures AdminBetween(s, Upsert(cur.users, admin.email, e.passwordHash, AdminRow), cur.userRoles, cfg, e)
    ensures AdminBetween(s, cur.users, cur.userRoles + {(admin.email, OWNER)}, cfg, e)
  {
  }

  // Each group of tables is followed on its own, so that no proof opens a call and all twelve tables at once.

  lemma AccessCall(s: Store, cur: Store, cfg: Config, step: Step)
    requires AccessBetween(s, cur.permissions, cur.roles, cur.grants, cfg)
    requires AccessLegit(s, cfg, step) && Exec(cur, step).Ok?
    ensures var next := Exec(cur, step).value; AccessBetween(s, next.permissions, next.roles, next.grants, cfg)
  {
    match step
    case UpsertPermission(code) => AfterPermission(s, cur, cfg, code);
    case UpsertRole(role) => AfterRole(s, cur, cfg, role);
    case GrantAll(roleCode, permissions) => AfterGrants(s, cur, cfg, roleCode, permissions);
    case _ =>
  }

  lemma PlaceCall(s: Store, cur: Store, cfg: Config, e: Env, step: Step)
    requires PlaceBetween(s, cur.locations, cur.properties, cfg, e)
    requires PlaceLegit(cfg, e, step) && Exec(cur, step).Ok?
    ensures var next := Exec(cur, step).value; PlaceBetween(s, next.locations, next.properties, cfg, e)
  {
    match step
    case EnsureCity(id) => AfterCity(s, cur, cfg, e);
    case UpsertProperty(property) => AfterProperty(s, cur, cfg, e);
    case _ =>
  }

  lemma UnitsAfter(cur: Store, step: Step)
    requires Exec(cur, step).Ok?
    ensures !step.UpsertUnit? ==> Exec(cur, step).value.units == cur.units
  {
  }

  lemma UnitsCall(s: Store, cur: Store, cfg: Config, e: Env, step: Step)
    requires WellFormed(cfg) && UnitsBetween(s, cur.units, cfg, e)
    requires UnitsLegit(cfg, e, step) && Exec(cur, step).Ok?
    ensures UnitsBetween(s, Exec(cur, step).value.units, cfg, e)
  {
    if step.UpsertUnit? {
      AfterUnit(s, cur, cfg, e, step.unit);
    } else {
      UnitsAfter(cur, step);
    }
  }

  lemma MediaCall(s: Store, cur: Store, cfg: Config, e: Env, step: Step)
    requires WellFormed(cfg) && Partial(s.media, cur.media, Index(cfg.images, MediaKey), MediaRow)
    requires (step.UpsertMedia? ==> step.image in cfg.images) && Exec(cur, step).Ok?
    ensures Partial(s.media, Exec(cur, step).value.media, Index(cfg.images, MediaKey), MediaRow)
  {
    if step.UpsertMedia? {
      AfterMedia(s, cur, cfg, step.image);
    }
  }

  lemma RateCall(s: Store, cur: Store, cfg: Config, entries: seq<RateEntry>, step: Step)
    requires Consistent(entries, RateKey) && Partial(s.rates, cur.rates, Index(entries, RateKey), RateRow)
    requires (step.UpsertRate? ==> step.rate in entries) && Exec(cur, step).Ok?
    ensures Partial(s.rates, Exec(cur, step).value.rates, Index(entries, RateKey), RateRow)
  {
    if step.UpsertRate? {
      AfterRate(s.rates, cur.rates, cfg, entries, step.rate);
    }
  }

  lemma KeyedCall(s: Store, cur: Store, cfg: Config, e: Env, step: Step)
    requires WellFormed(cfg) && KeyedBetween(s, cur.media, cur.rates, cfg, e)
    requires DerivedLegit(s, cfg, e, step) && Exec(cur, step).Ok?
    ensures var next := Exec(cur, step).value; KeyedBetween(s, next.media, next.rates, cfg, e)
  {
    var units := TargetUnits(s, cfg, e);
    var entries := RateEntries(Listing(units, cfg), units, cfg.days);
    RateEntriesConsistent(Listing(units, cfg), units, cfg.days);
    MediaCall(s, cur, cfg, e, step);
    RateCall(s, cur, cfg, entries, step);
  }

  lemma RebuiltCall(s: Store, cur: Store, cfg: Config, e: Env, step: Step)
    requires WellFormed(cfg) && RebuiltBetween(s, cur.unitMedia, cur.blocks, cfg, e)
    requires DerivedLegit(s, cfg, e, step) && Exec(cur, step).Ok?
    ensures var next := Exec(cur, step).value; RebuiltBetween(s, next.unitMedia, next.blocks, cfg, e)
  {
    var listing := Listing(TargetUnits(s, cfg, e), cfg);
    match step
    case ClearUnitMedia(codes) => GalleryElsewhere(cur.unitMedia, listing, MediaKeys(cfg));
    case CreateUnitMedia(rows) => GalleryElsewhere(cur.unitMedia, listing, MediaKeys(cfg));
    case ClearBlocks => Rebuilt(cur.blocks, []);
    case CreateBlocks(rows) => BlockRowsValid(listing, cfg); Rebuilt(cur.blocks, rows);
    case _ =>
  }

  lemma AdminCall(s: Store, cur: Store, cfg: Config, e: Env, step: Step)
    requires AdminBetween(s, cur.users, cur.userRoles, cfg, e)
    requires AdminLegit(cfg, e, step) && Exec(cur, step).Ok?
    ensures var next := Exec(cur, step).value; AdminBetween(s, next.users, next.userRoles, cfg, e)
  {
    if step.UpsertAdmin? || step.GrantRole? {
      AfterAdmin(s, cur, cfg, e, Admin(cfg).value);
    }
  }

  /** A call of a run from s, made on a store between s and its target, leaves a store between them. */
  lemma StepKeepsBetween(s: Store, cur: Store, cfg: Config, e: Env, step: Step)
    requires WellFormed(cfg) && Between(s, cur, cfg, e) && Legit(s, cfg, e, step) && Exec(cur, step).Ok?
    ensures Between(s, Exec(cur, step).value, cfg, e)
  {
    AccessCall(s, cur, cfg, step);
    PlaceCall(s, cur, cfg, e, step);
    UnitsCall(s, cur, cfg, e, step);
    KeyedCall(s, cur, cfg, e, step);
    RebuiltCall(s, cur, cfg, e, step);
    AdminCall(s, cur, cfg, e, step);
  }

  lemma {:induction false} PlayKeepsBetween(s: Store, cfg: Config, e: Env, steps: seq<Step>)
    requires WellFormed(cfg) && CityChoice(s, e.city) && AllLegit(s, cfg, e, steps) && Play(s, steps).Ok?
    ensures Between(s, Play(s, steps).value, cfg, e)
  {
    if steps == [] {
      BetweenSelf(s, cfg, e);
    } else {
      var n := |steps| - 1;
      PlayKeepsBetween(s, cfg, e, steps[..n]);
      StepKeepsBetween(s, Play(s, steps[..n]).value, cfg, e, steps[n]);
    }
  }

  /** Wherever a run is stopped, the store is between its start and its target. */
  lemma StoppedRun(s: Store, cfg: Config, e: Env, order: seq<string>, k: nat)
    requires WellFormed(cfg) && Schedule(order, cfg) && CityChoice(s, e.city)
    requires k <= |Script(s, cfg, e, order)| && Play(s, Script(s, cfg, e, order)[..k]).Ok?
    ensures Between(s, Play(s, Script(s, cfg, e, order)[..k]).value, cfg, e)
  {
    ScriptLegit(s, cfg, e, order);
    PlayKeepsBetween(s, cfg, e, Script(s, cfg, e, order)[..k]);
  }

  lemma TakenPersists(units: map<string, Unit>, later: map<string, Unit>, index: map<string, UnitEntry>, u: UnitSpec)
    requires Partial(units, later, index, UnitRow)
    ensures Taken(units, u) ==> Taken(later, u)
  {
  }

  lemma SameCodeSameUnit(cfg: Config, e: Env, entry: UnitEntry)
    requires WellFormed(cfg) && entry in UnitEntries(cfg, e)
    ensures entry.spec in cfg.Units()
    ensures forall u :: u in cfg.Units() && u.code == entry.spec.code ==> u == entry.spec
  {
  }
}
