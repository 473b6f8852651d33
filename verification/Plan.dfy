/** What a run does, as a list of calls, and what it is for, as a target store.
    Both are functions of the initial store, the configuration and the environment. */
module Plan {
  import opened Basics
  import opened Entities
  import opened SeedConfig
  import opened Ordering
  import opened Tables
  import opened Rotation
  import opened Blocks
  import opened Steps

  // ----- Pieces of the target -----

  const ROLE_ENTRIES := [RoleEntry(OWNER, "Admin owner"), RoleEntry(STAFF, "Staff")]

  function PropertyEntries(cfg: Config, e: Env): map<string, PropertyEntry> {
    map[PROPERTY_SLUG := PropertyEntry(cfg.property, e.city, e.propertyStamp)]
  }

  function UnitEntries(cfg: Config, e: Env): seq<UnitEntry> {
    seq(|cfg.Units()|, i requires 0 <= i < |cfg.Units()| => UnitEntry(cfg.Units()[i], e.unitStamp(cfg.Units()[i].code)))
  }

  function MediaKeys(cfg: Config): seq<string> {
    seq(|cfg.images|, i requires 0 <= i < |cfg.images| => cfg.images[i].storageKey)
  }

  function TargetPermissions(s: Store, cfg: Config): map<string, Permission> {
    Bulk(s.permissions, Index(cfg.permissions, PermissionKey), PermissionRow)
  }

  function AllPermissions(s: Store, cfg: Config): set<string> {
    TargetPermissions(s, cfg).Keys
  }

  function StaffPermissions(s: Store, cfg: Config): set<string> {
    set p | p in AllPermissions(s, cfg) && p in cfg.staffCodes
  }

  function TargetGrants(s: Store, cfg: Config): set<(string, string)> {
    s.grants
    + (set p | p in AllPermissions(s, cfg) :: (OWNER, p))
    + (set p | p in StaffPermissions(s, cfg) :: (STAFF, p))
  }

  function TargetLocations(s: Store, e: Env): map<int, Location> {
    if Roots(s.locations) != {} then s.locations else s.locations[e.city := CITY_ROW]
  }

  function TargetUnits(s: Store, cfg: Config, e: Env): map<string, Unit> {
    Bulk(s.units, Index(UnitEntries(cfg, e), UnitKey), UnitRow)
  }

  /** The units of the seeded property. */
  function Members(units: map<string, Unit>): set<string> {
    set c | c in units && units[c].property == PROPERTY_SLUG
  }

  /** The units of the property in publicCode order. */
  ghost function Listing(units: map<string, Unit>, cfg: Config): seq<string> {
    SortedOf(Members(units), cfg.less)
  }

  function BasePrice(units: map<string, Unit>, c: string): int {
    if c in units then units[c].basePrice else 0
  }

  function DayRates(unit: string, base: int, days: seq<Day>): seq<RateEntry> {
    seq(|days|, j requires 0 <= j < |days| => RateEntry(unit, days[j].date, Scaled(base, days[j].percent)))
  }

  /** Every unit with every date, unit by unit. */
  function RateEntries(listing: seq<string>, units: map<string, Unit>, days: seq<Day>): seq<RateEntry> {
    if listing == [] then []
    else
      var n := |listing| - 1;
      RateEntries(listing[..n], units, days) + DayRates(listing[n], BasePrice(units, listing[n]), days)
  }

  ghost function TargetRates(s: Store, cfg: Config, e: Env): map<(string, int), Rate> {
    var units := TargetUnits(s, cfg, e);
    Bulk(s.rates, Index(RateEntries(Listing(units, cfg), units, cfg.days), RateKey), RateRow)
  }

  function TargetUsers(s: Store, cfg: Config, e: Env): map<string, User> {
    match Admin(cfg)
    case None => s.users
    case Some(a) => Upsert(s.users, a.email, e.passwordHash, AdminRow)
  }

  function TargetUserRoles(s: Store, cfg: Config): set<(string, string)> {
    match Admin(cfg)
    case None => s.userRoles
    case Some(a) => s.userRoles + {(a.email, OWNER)}
  }

  /** The store an undisturbed run leaves behind. */
  ghost function Target(s: Store, cfg: Config, e: Env): Store {
    var units := TargetUnits(s, cfg, e);
    var listing := Listing(units, cfg);
    Store(
      TargetPermissions(s, cfg),
      Bulk(s.roles, Index(ROLE_ENTRIES, RoleKey), RoleRow),
      TargetGrants(s, cfg),
      TargetLocations(s, e),
      Bulk(s.properties, PropertyEntries(cfg, e), PropertyRow),
      units,
      Bulk(s.media, Index(cfg.images, MediaKey), MediaRow),
      Elsewhere(s.unitMedia, listing) + RowSet(MediaRows(listing, MediaKeys(cfg))),
      Kept(s.blocks) + BlockRows(listing, cfg.templates),
      TargetRates(s, cfg, e),
      TargetUsers(s, cfg, e),
      TargetUserRoles(s, cfg))
  }

  // ----- The calls -----

  function PermissionSteps(order: seq<string>): seq<Step> {
    if order == [] then []
    else
      var n := |order| - 1;
      PermissionSteps(order[..n]) + [UpsertPermission(order[n])]
  }

  function AccessSteps(all: set<string>, staff: set<string>): seq<Step> {
    [UpsertRole(ROLE_ENTRIES[0]), UpsertRole(ROLE_ENTRIES[1]), GrantAll(OWNER, all), GrantAll(STAFF, staff)]
  }

  function PlaceSteps(cfg: Config, e: Env): seq<Step> {
    [EnsureCity(e.city), UpsertProperty(PropertyEntry(cfg.property, e.city, e.propertyStamp))]
  }

  function UnitSteps(entries: seq<UnitEntry>): seq<Step> {
    if entries == [] then []
    else
      var n := |entries| - 1;
      UnitSteps(entries[..n]) + [UpsertUnit(entries[n])]
  }

  function MediaSteps(images: seq<ImageSpec>): seq<Step> {
    if images == [] then []
    else
      var n := |images| - 1;
      MediaSteps(images[..n]) + [UpsertMedia(images[n])]
  }

  function GallerySteps(listing: seq<string>, cfg: Config): seq<Step> {
    [ClearUnitMedia(listing), CreateUnitMedia(MediaRows(listing, MediaKeys(cfg)))]
  }

  function BlockSteps(listing: seq<string>, cfg: Config): seq<Step> {
    [ClearBlocks, CreateBlocks(BlockRows(listing, cfg.templates))]
  }

  function RateSteps(entries: seq<RateEntry>): seq<Step> {
    if entries == [] then []
    else
      var n := |entries| - 1;
      RateSteps(entries[..n]) + [UpsertRate(entries[n])]
  }

  function AdminSteps(cfg: Config, e: Env): seq<Step> {
    match Admin(cfg)
    case None => []
    case Some(a) => [UpsertAdmin(a, e.passwordHash), GrantRole(a.email, OWNER)]
  }

  /** Calls up to and including the last unit upsert. */
  function SetupScript(s: Store, cfg: Config, e: Env, order: seq<string>): seq<Step> {
    PermissionSteps(order) + AccessSteps(AllPermissions(s, cfg), StaffPermissions(s, cfg)) + PlaceSteps(cfg, e)
    + UnitSteps(UnitEntries(cfg, e))
  }

  /** Calls computed from the listed units. */
  function DerivedScript(listing: seq<string>, units: map<string, Unit>, cfg: Config, e: Env): seq<Step> {
    MediaSteps(cfg.images) + GallerySteps(listing, cfg) + BlockSteps(listing, cfg)
    + RateSteps(RateEntries(listing, units, cfg.days)) + AdminSteps(cfg, e)
  }

  /** The whole run. order is the order in which the concurrent permission upserts commit. */
  ghost function Script(s: Store, cfg: Config, e: Env, order: seq<string>): seq<Step> {
    var units := TargetUnits(s, cfg, e);
    SetupScript(s, cfg, e, order) + DerivedScript(Listing(units, cfg), units, cfg, e)
  }

  // ----- Side conditions -----

  /** The environment answers the city lookup truthfully, and generates unused ids. */
  ghost predicate CityChoice(s: Store, id: int) {
    if Roots(s.locations) != {} then id in Roots(s.locations) else id !in s.locations
  }

  /** The concurrent upserts commit in some order. */
  ghost predicate Schedule(order: seq<string>, cfg: Config) {
    multiset(order) == multiset(cfg.permissions)
  }

  ghost predicate PropertyFree(s: Store, cfg: Config) {
    PROPERTY_SLUG in s.properties || !PropertyTaken(s.properties, cfg.property.slugEn)
  }

  ghost predicate UnitsFree(s: Store, cfg: Config) {
    forall u :: u in cfg.Units() ==> u.code in s.units || !Taken(s.units, u)
  }

  /** Units of the property that the seed does not price itself have prices it can scale. */
  ghost predicate MembersPriced(s: Store, cfg: Config) {
    forall c :: c in Members(s.units) && !cfg.Seeds(c) ==> PricesFit(s.units[c].basePrice, cfg.days)
  }

  ghost predicate PasswordOk(cfg: Config) {
    Admin(cfg).Some? ==> |Admin(cfg).value.password| >= MIN_PASSWORD
  }

  ghost predicate AmountsStorable(entries: seq<RateEntry>) {
    forall r :: r in entries ==> Fits(r.amount)
  }

  /** What must hold of a store for a run to reach its end; checkable before the run. */
  ghost predicate Completable(s: Store, cfg: Config) {
    PropertyFree(s, cfg) && UnitsFree(s, cfg) && MembersPriced(s, cfg) && PasswordOk(cfg)
  }

  /** What a whole run amounts to: the target, or the first thing that throws. */
  ghost function Verdict(s: Store, cfg: Config, e: Env): Result<Store, DbError> {
    if !PropertyFree(s, cfg) || !UnitsFree(s, cfg) then Err(UniqueViolation)
    else if !MembersPriced(s, cfg) then Err(NumericOverflow)
    else if !PasswordOk(cfg) then Err(PasswordTooShort)
    else Ok(Target(s, cfg, e))
  }
}
