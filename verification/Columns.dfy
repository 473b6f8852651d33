/** What a run is for, in the columns of the schema and the literals of the seed. Nothing here
    calls the functions that compute a run, so the two descriptions check each other: Effects
    proves that every run ends as said here, and that what is said here leaves no choice. */
module Columns {
  import opened Basics
  import opened Entities
  import opened SeedConfig

  ghost predicate RowIs<K, V>(table: map<K, V>, k: K, row: V) {
    k in table && table[k] == row
  }

  ghost predicate SameRow<K, V>(t: map<K, V>, u: map<K, V>, k: K) {
    if k in t then RowIs(u, k, t[k]) else k !in u
  }

  // ----- Roles and permissions -----

  ghost predicate PermissionsLeft(t: map<string, Permission>, u: map<string, Permission>, codes: seq<string>) {
    forall c ::
      if c !in t && c in codes then RowIs(u, c, Permission(None)) else SameRow(t, u, c)
  }

  ghost predicate RolesLeft(t: map<string, Role>, u: map<string, Role>) {
    forall r ::
      if r !in t && r == "ADMIN_OWNER" then RowIs(u, r, Role("Admin owner"))
      else if r !in t && r == "STAFF" then RowIs(u, r, Role("Staff"))
      else SameRow(t, u, r)
  }

  ghost predicate GrantsLeft(t: set<(string, string)>, u: set<(string, string)>,
                             permissions: map<string, Permission>, staffCodes: set<string>) {
    forall r, p :: (r, p) in u <==>
      || (r, p) in t
      || (r == "ADMIN_OWNER" && p in permissions)
      || (r == "STAFF" && p in permissions && p in staffCodes)
  }

  // ----- City and property -----

  ghost predicate RootCity(locations: map<int, Location>, l: int) {
    l in locations && locations[l].parent == None && locations[l].slugVi == "da-nang"
  }

  ghost predicate HasRootCity(locations: map<int, Location>) {
    exists l :: RootCity(locations, l)
  }

  /** The lookup returns some root city if there is one; a generated id is not in use. */
  ghost predicate CityAnswer(locations: map<int, Location>, id: int) {
    if HasRootCity(locations) then RootCity(locations, id) else id !in locations
  }

  ghost predicate LocationsLeft(t: map<int, Location>, u: map<int, Location>, id: int) {
    if HasRootCity(t) then u == t
    else u == t[id := Location(None, City, "Đà Nẵng", "Da Nang", "da-nang", "da-nang", PublishedContent)]
  }

  ghost predicate PropertiesLeft(t: map<string, Property>, u: map<string, Property>, spec: PropertySpec,
                                 city: int, stamp: int) {
    forall p ::
      if p != "panoma" then SameRow(t, u, p)
      else if p in t then
        RowIs(u, p, t[p].(name := spec.name, descriptionVi := spec.descriptionVi,
                          descriptionEn := spec.descriptionEn, status := ActiveProperty))
      else
        RowIs(u, p, Property(spec.name, spec.slugEn, spec.descriptionVi, spec.descriptionEn, city, spec.address,
                             spec.checkInTime, spec.checkOutTime, ActiveProperty, Some(stamp)))
  }

  // ----- Units -----

  ghost predicate Unseeded(cfg: Config, c: string) {
    c != cfg.flagship.code && forall u :: u in cfg.demoUnits ==> u.code != c
  }

  ghost predicate FlagshipLeft(t: map<string, Unit>, u: map<string, Unit>, spec: UnitSpec, stamp: int) {
    match spec
    case Flagship(code, nameVi, nameEn, slugVi, slugEn, rooms, basePrice) =>
      RowIs(u, code,
            if code in t then
              t[code].(status := PublishedUnit, basePrice := basePrice, cleaningFee := 200_000_00,
                       serviceFeeRate := 500, depositRate := 3000)
            else
              Unit("panoma", "INT-" + code, slugVi, slugEn, nameVi, nameEn, rooms, basePrice, "VND",
                   200_000_00, 500, 3000, PublishedUnit, Some(stamp)))
    case Demo(_, _, _, _, _) => true
  }

  ghost predicate DemoLeft(t: map<string, Unit>, u: map<string, Unit>, spec: UnitSpec, slug: string, stamp: int) {
    RowIs(u, spec.code,
          if spec.code in t then
            t[spec.code].(nameVi := spec.nameVi, nameEn := spec.nameEn, rooms := spec.rooms,
                          basePrice := spec.basePrice, status := PublishedUnit)
          else
            Unit("panoma", "INT-" + spec.code, slug, slug, spec.nameVi, spec.nameEn, spec.rooms, spec.basePrice,
                 "VND", 150_000_00, 500, 3000, PublishedUnit, Some(stamp)))
  }

  ghost predicate UnitsLeft(t: map<string, Unit>, u: map<string, Unit>, cfg: Config, stamp: string -> int) {
    && (forall c :: Unseeded(cfg, c) ==> SameRow(t, u, c))
    && FlagshipLeft(t, u, cfg.flagship, stamp(cfg.flagship.code))
    && (forall spec, slug :: spec in cfg.demoUnits && Lowered(spec.code, slug) ==>
          DemoLeft(t, u, spec, slug, stamp(spec.code)))
  }

  /** The units of the property, all of them, in publicCode order. */
  ghost predicate Listed(listing: seq<string>, units: map<string, Unit>, less: (string, string) -> bool) {
    && (forall i, j :: 0 <= i < j < |listing| ==> less(listing[i], listing[j]))
    && (forall c :: c in listing <==> c in units && units[c].property == "panoma")
  }

  // ----- What is computed from the listed units -----

  ghost predicate MediaLeft(t: map<string, Media>, u: map<string, Media>, images: seq<ImageSpec>) {
    && (forall k :: (forall x :: x in images ==> x.storageKey != k) ==> SameRow(t, u, k))
    && (forall x :: x in images ==>
          RowIs(u, x.storageKey,
                if x.storageKey in t then
                  t[x.storageKey].(url := x.url, width := Some(x.width), height := Some(x.height),
                                   mimeType := "image/jpeg", altVi := Some(x.altVi), altEn := Some(x.altEn))
                else
                  Media(x.url, Some(x.width), Some(x.height), "image/jpeg", 0, Some(x.altVi), Some(x.altEn),
                        None, None)))
  }

  /** Position i of listed unit u shows image u + i, counted cyclically. */
  ghost predicate Shown(r: UnitMedia, listing: seq<string>, images: seq<ImageSpec>) {
    && r.kind == Image && 0 <= r.sortOrder < |images|
    && exists u :: 0 <= u < |listing| && listing[u] == r.unit
         && images[(u + r.sortOrder) % |images|].storageKey == r.media
  }

  ghost predicate GalleryLeft(t: set<UnitMedia>, u: set<UnitMedia>, listing: seq<string>, images: seq<ImageSpec>) {
    forall r: UnitMedia ::
      r in u <==> if r.unit in listing then Shown(r, listing, images) else r in t
  }

  /** No two rows, new or stored, share a unit and a medium or a unit and a position. */
  ghost predicate RowsFit(t: set<UnitMedia>, rows: seq<UnitMedia>) {
    && (forall i, j :: 0 <= i < j < |rows| && rows[i].unit == rows[j].unit ==>
          rows[i].media != rows[j].media && rows[i].sortOrder != rows[j].sortOrder)
    && (forall r, m :: r in rows && m in t && r.unit == m.unit ==>
          r.media != m.media && r.sortOrder != m.sortOrder)
  }

  ghost predicate Prefixed(b: Block) {
    b.reason.Some? && "SEED-SEP-2026" <= b.reason.value
  }

  ghost predicate Planned(b: Block, listing: seq<string>, templates: seq<Template>) {
    exists i :: 0 <= i < |listing| && i < |templates|
      && b == Block(listing[i], templates[i].startDate, templates[i].endDate,
                    if i % 2 == 0 then Blocked else Maintenance, Some(templates[i].reason), None)
  }

  /** Blocks without the prefix are as many as before; one with it is there once if planned, and else not. */
  ghost predicate BlocksLeft(t: seq<Block>, u: seq<Block>, listing: seq<string>, templates: seq<Template>) {
    forall b :: multiset(u)[b] ==
      if !Prefixed(b) then multiset(t)[b] else if Planned(b, listing, templates) then 1 else 0
  }

  ghost predicate RatesLeft(t: map<(string, int), Rate>, u: map<(string, int), Rate>, units: map<string, Unit>,
                            days: seq<Day>) {
    && (forall c, d, amount | c in units && units[c].property == "panoma" && d in days
            && Rounded(units[c].basePrice * d.percent, amount) ::
          RowIs(u, (c, d.date), Rate(amount, Some(2))))
    && (forall k: (string, int) ::
          k.0 !in units || units[k.0].property != "panoma" || (forall d :: d in days ==> d.date != k.1) ==>
            SameRow(t, u, k))
  }

  // ----- Administrator -----

  ghost predicate Configured(cfg: Config) {
    && cfg.adminEmail.Some? && cfg.adminEmail.value != ""
    && cfg.adminPassword.Some? && cfg.adminPassword.value != ""
  }

  ghost predicate UsersLeft(t: map<string, User>, u: map<string, User>, cfg: Config, hash: string) {
    forall m ::
      if !Configured(cfg) || !Lowered(cfg.adminEmail.value, m) then SameRow(t, u, m)
      else RowIs(u, m, if m in t then t[m].(passwordHash := hash) else User(hash, "Admin", "Owner", true, 0))
  }

  ghost predicate UserRolesLeft(t: set<(string, string)>, u: set<(string, string)>, cfg: Config) {
    forall g: (string, string) :: g in u <==>
      g in t || (Configured(cfg) && Lowered(cfg.adminEmail.value, g.0) && g.1 == "ADMIN_OWNER")
  }

  // ----- The whole store -----

  ghost predicate FirstHalfLeft(s: Store, t: Store, cfg: Config, e: Env) {
    && PermissionsLeft(s.permissions, t.permissions, cfg.permissions)
    && RolesLeft(s.roles, t.roles)
    && GrantsLeft(s.grants, t.grants, t.permissions, cfg.staffCodes)
    && LocationsLeft(s.locations, t.locations, e.city)
    && PropertiesLeft(s.properties, t.properties, cfg.property, e.city, e.propertyStamp)
    && UnitsLeft(s.units, t.units, cfg, e.unitStamp)
  }

  ghost predicate SecondHalfLeft(s: Store, t: Store, cfg: Config, e: Env, listing: seq<string>) {
    && Listed(listing, t.units, cfg.less)
    && MediaLeft(s.media, t.media, cfg.images)
    && GalleryLeft(s.unitMedia, t.unitMedia, listing, cfg.images)
    && BlocksLeft(s.blocks, t.blocks, listing, cfg.templates)
    && RatesLeft(s.rates, t.rates, t.units, cfg.days)
    && UsersLeft(s.users, t.users, cfg, e.passwordHash)
    && UserRolesLeft(s.userRoles, t.userRoles, cfg)
  }

  /** t is what a run that completes on s leaves. */
  ghost predicate Leaves(s: Store, t: Store, cfg: Config, e: Env) {
    FirstHalfLeft(s, t, cfg, e) && exists listing :: SecondHalfLeft(s, t, cfg, e, listing)
  }

  // ----- When a run completes -----

  ghost predicate PropertyKeyFree(properties: map<string, Property>, slugEn: string) {
    "panoma" in properties || forall p :: p in properties ==> properties[p].slugEn != slugEn
  }

  /** The unit is stored already, or its three other keys are not in use. */
  ghost predicate UnitKeysFree(units: map<string, Unit>, code: string, slugVi: string, slugEn: string) {
    code in units || forall c :: c in units ==>
      units[c].internalCode != "INT-" + code && units[c].slugVi != slugVi && units[c].slugEn != slugEn
  }

  ghost predicate FlagshipFree(units: map<string, Unit>, spec: UnitSpec) {
    match spec
    case Flagship(code, _, _, slugVi, slugEn, _, _) => UnitKeysFree(units, code, slugVi, slugEn)
    case Demo(_, _, _, _, _) => true
  }

  ghost predicate KeysFree(s: Store, cfg: Config) {
    && PropertyKeyFree(s.properties, cfg.property.slugEn)
    && FlagshipFree(s.units, cfg.flagship)
    && (forall spec, slug :: spec in cfg.demoUnits && Lowered(spec.code, slug) ==>
          UnitKeysFree(s.units, spec.code, slug, slug))
  }

  /** Times any multiplier, the price of a unit the seed does not price rounds to less than 10^10 dong. */
  ghost predicate PricesScale(s: Store, cfg: Config) {
    forall c, d :: c in s.units && s.units[c].property == "panoma" && Unseeded(cfg, c) && d in cfg.days ==>
      -99_999_999_999_950 < s.units[c].basePrice * d.percent < 99_999_999_999_950
  }

  ghost predicate PasswordLong(cfg: Config) {
    Configured(cfg) ==> |cfg.adminPassword.value| >= 8
  }

  /** How a run on s ends: with the store it is for, or with the first thing that throws. */
  ghost predicate Ends(s: Store, r: Result<Store, DbError>, cfg: Config, e: Env) {
    if !KeysFree(s, cfg) then r == Err(UniqueViolation)
    else if !PricesScale(s, cfg) then r == Err(NumericOverflow)
    else if !PasswordLong(cfg) then r == Err(PasswordTooShort)
    else r.Ok? && Leaves(s, r.value, cfg, e)
  }
}
