/** The awaited database calls of the seed, one at a time. Each call commits on its own:
    there is no transaction around the run. */
module Steps {
  import opened Basics
  import opened Entities
  import opened SeedConfig
  import opened Columns
  import opened Tables
  import opened Rotation
  import opened Blocks

  // ----- Entries and the rows their upserts leave -----

  datatype RoleEntry = RoleEntry(code: string, name: string)

  datatype PropertyEntry = PropertyEntry(spec: PropertySpec, city: int, at: int)

  datatype UnitEntry = UnitEntry(spec: UnitSpec, at: int)

  datatype RateEntry = RateEntry(unit: string, date: int, amount: int)

  function PermissionKey(code: string): string { code }

  function PermissionRow(code: string, was: Option<Permission>): Permission {
    if was.Some? then was.value else Permission(None)
  }

  function RoleKey(e: RoleEntry): string { e.code }

  function RoleRow(e: RoleEntry, was: Option<Role>): Role {
    if was.Some? then was.value else Role(e.name)
  }

  function PropertyRow(e: PropertyEntry, was: Option<Property>): Property {
    match was
    case None =>
      Property(e.spec.name, e.spec.slugEn, e.spec.descriptionVi, e.spec.descriptionEn, e.city, e.spec.address,
               e.spec.checkInTime, e.spec.checkOutTime, ActiveProperty, Some(e.at))
    case Some(p) =>
      p.(name := e.spec.name, descriptionVi := e.spec.descriptionVi, descriptionEn := e.spec.descriptionEn,
         status := ActiveProperty)
  }

  function UnitKey(e: UnitEntry): string { e.spec.code }

  function UnitRow(e: UnitEntry, was: Option<Unit>): Unit {
    match was
    case None =>
      Unit(PROPERTY_SLUG, e.spec.InternalCode(), e.spec.SlugVi(), e.spec.SlugEn(), e.spec.nameVi, e.spec.nameEn,
           e.spec.rooms, e.spec.basePrice, CURRENCY,
           if e.spec.Flagship? then FLAGSHIP_CLEANING_FEE else DEMO_CLEANING_FEE,
           SERVICE_FEE_RATE, DEPOSIT_RATE, PublishedUnit, Some(e.at))
    case Some(u) =>
      if e.spec.Flagship? then
        u.(status := PublishedUnit, basePrice := e.spec.basePrice, cleaningFee := FLAGSHIP_CLEANING_FEE,
           serviceFeeRate := SERVICE_FEE_RATE, depositRate := DEPOSIT_RATE)
      else
        u.(nameVi := e.spec.nameVi, nameEn := e.spec.nameEn, rooms := e.spec.rooms,
           basePrice := e.spec.basePrice, status := PublishedUnit)
  }

  function MediaKey(e: ImageSpec): string { e.storageKey }

  function MediaRow(e: ImageSpec, was: Option<Media>): Media {
    match was
    case None =>
      Media(e.url, Some(e.width), Some(e.height), "image/jpeg", 0, Some(e.altVi), Some(e.altEn), None, None)
    case Some(m) =>
      m.(url := e.url, width := Some(e.width), height := Some(e.height), mimeType := "image/jpeg",
         altVi := Some(e.altVi), altEn := Some(e.altEn))
  }

  function RateKey(e: RateEntry): (string, int) { (e.unit, e.date) }

  function RateRow(e: RateEntry, was: Option<Rate>): Rate {
    Rate(e.amount, Some(MIN_STAY))
  }

  function AdminRow(hash: string, was: Option<User>): User {
    match was
    case None => User(hash, "Admin", "Owner", true, 0)
    case Some(u) => u.(passwordHash := hash)
  }

  const CITY_ROW := Location(None, City, "Đà Nẵng", "Da Nang", CITY_SLUG, CITY_SLUG, PublishedContent)

  /** Root rows with the seed's city slug. */
  function Roots(locations: map<int, Location>): set<int> {
    set l | l in locations && locations[l].parent == None && locations[l].slugVi == CITY_SLUG
  }

  lemma RootsAreRootCities(locations: map<int, Location>)
    ensures forall l :: l in Roots(locations) <==> RootCity(locations, l)
    ensures Roots(locations) != {} <==> HasRootCity(locations)
  {
    if HasRootCity(locations) {
      var l :| RootCity(locations, l);
      assert l in Roots(locations);
    } else {
      forall l
        ensures l !in Roots(locations)
      {
        assert !RootCity(locations, l);
      }
      assert Roots(locations) == {};
    }
  }

  /** Whether a secondary key of a unit to be created is already in use. */
  predicate Taken(units: map<string, Unit>, spec: UnitSpec) {
    exists c :: c in units && (units[c].internalCode == spec.InternalCode()
                               || units[c].slugVi == spec.SlugVi() || units[c].slugEn == spec.SlugEn())
  }

  predicate PropertyTaken(properties: map<string, Property>, slugEn: string) {
    exists p :: p in properties && properties[p].slugEn == slugEn
  }

  // ----- Calls -----

  datatype Step =
    | UpsertPermission(code: string)
    | UpsertRole(role: RoleEntry)
    | GrantAll(roleCode: string, permissions: set<string>)
    | EnsureCity(id: int)
    | UpsertProperty(property: PropertyEntry)
    | UpsertUnit(unit: UnitEntry)
    | UpsertMedia(image: ImageSpec)
    | ClearUnitMedia(units: seq<string>)
    | CreateUnitMedia(placements: seq<UnitMedia>)
    | ClearBlocks
    | CreateBlocks(blocks: seq<Block>)
    | UpsertRate(rate: RateEntry)
    | UpsertAdmin(admin: Credentials, hash: string)
    | GrantRole(email: string, roleCode: string)

  /** Rows of UnitMedia outside the listed units. */
  function Elsewhere(table: set<UnitMedia>, units: seq<string>): set<UnitMedia> {
    set r | r in table && r.unit !in units
  }

  function RowSet(rows: seq<UnitMedia>): set<UnitMedia> {
    set r | r in rows
  }

  /** The rows clash neither with each other nor with the table. */
  ghost predicate Insertable(rows: seq<UnitMedia>, table: set<UnitMedia>) {
    NoClash(rows) && forall r, m :: r in rows && m in table ==> !PlacementsClash(r, m)
  }

  /** One call on one store: the committed store, or the reason the call throws.
      A call that throws commits nothing. */
  ghost function Exec(s: Store, step: Step): Result<Store, DbError> {
    match step
    case UpsertPermission(code) =>
      Ok(s.(permissions := Upsert(s.permissions, code, code, PermissionRow)))
    case UpsertRole(role) =>
      Ok(s.(roles := Upsert(s.roles, role.code, role, RoleRow)))
    case GrantAll(roleCode, permissions) =>
      if roleCode in s.roles && permissions <= s.permissions.Keys
      then Ok(s.(grants := s.grants + set p | p in permissions :: (roleCode, p)))
      else Err(ForeignKeyViolation)
    case EnsureCity(id) =>
      if Roots(s.locations) != {} then Ok(s)
      else if id in s.locations then Err(UniqueViolation)
      else Ok(s.(locations := s.locations[id := CITY_ROW]))
    case UpsertProperty(property) =>
      if PROPERTY_SLUG !in s.properties && PropertyTaken(s.properties, property.spec.slugEn) then Err(UniqueViolation)
      else if PROPERTY_SLUG !in s.properties && property.city !in s.locations then Err(ForeignKeyViolation)
      else Ok(s.(properties := Upsert(s.properties, PROPERTY_SLUG, property, PropertyRow)))
    case UpsertUnit(unit) =>
      if unit.spec.code !in s.units && Taken(s.units, unit.spec) then Err(UniqueViolation)
      else if unit.spec.code !in s.units && PROPERTY_SLUG !in s.properties then Err(ForeignKeyViolation)
      else Ok(s.(units := Upsert(s.units, unit.spec.code, unit, UnitRow)))
    case UpsertMedia(image) =>
      Ok(s.(media := Upsert(s.media, image.storageKey, image, MediaRow)))
    case ClearUnitMedia(units) =>
      Ok(s.(unitMedia := Elsewhere(s.unitMedia, units)))
    case CreateUnitMedia(rows) =>
      if !Insertable(rows, s.unitMedia) then Err(UniqueViolation)
      else if !PlacementsResolve(RowSet(rows), s.units.Keys, s.media.Keys) then Err(ForeignKeyViolation)
      else Ok(s.(unitMedia := s.unitMedia + RowSet(rows)))
    case ClearBlocks =>
      Ok(s.(blocks := Kept(s.blocks)))
    case CreateBlocks(rows) =>
      if !IntervalsValid(rows) then Err(CheckViolation)
      else if !BlocksResolve(rows, s.units.Keys) then Err(ForeignKeyViolation)
      else Ok(s.(blocks := s.blocks + rows))
    case UpsertRate(rate) =>
      if !Fits(rate.amount) then Err(NumericOverflow)
      else if RateKey(rate) !in s.rates && rate.unit !in s.units then Err(ForeignKeyViolation)
      else Ok(s.(rates := Upsert(s.rates, RateKey(rate), rate, RateRow)))
    case UpsertAdmin(admin, hash) =>
      if |admin.password| < MIN_PASSWORD then Err(PasswordTooShort)
      else Ok(s.(users := Upsert(s.users, admin.email, hash, AdminRow)))
    case GrantRole(email, roleCode) =>
      if email in s.users && roleCode in s.roles then Ok(s.(userRoles := s.userRoles + {(email, roleCode)}))
      else Err(ForeignKeyViolation)
  }

  /** A run of calls. It stops at the first call that throws. */
  ghost function Play(s: Store, steps: seq<Step>): Result<Store, DbError> {
    if steps == [] then Ok(s)
    else
      var n := |steps| - 1;
      match Play(s, steps[..n])
      case Err(e) => Err(e)
      case Ok(m) => Exec(m, steps[n])
  }

  lemma {:induction false} PlayAppend(s: Store, a: seq<Step>, b: seq<Step>)
    ensures Play(s, a + b) == match Play(s, a) case Err(e) => Err(e) case Ok(m) => Play(m, b)
  {
    if b == [] {
      assert a + b == a;
    } else {
      var n := |b| - 1;
      PlayAppend(s, a, b[..n]);
      assert (a + b)[..|a + b| - 1] == a + b[..n];
    }
  }

  lemma PlayOne(s: Store, steps: seq<Step>, step: Step)
    ensures Play(s, steps + [step]) == match Play(s, steps) case Err(e) => Err(e) case Ok(m) => Exec(m, step)
  {
  }

  lemma PlayThen(s: Store, steps: seq<Step>, m: Store, step: Step)
    requires Play(s, steps) == Ok(m)
    ensures Play(s, steps + [step]) == Exec(m, step)
  {
  }

  lemma PlayOnward(s: Store, a: seq<Step>, m: Store, b: seq<Step>)
    requires Play(s, a) == Ok(m)
    ensures Play(s, a + b) == Play(m, b)
  {
    PlayAppend(s, a, b);
  }

  /** A run that stopped at call k ends with that call's error, whatever was to follow. */
  lemma PlayStops(s: Store, steps: seq<Step>, k: nat)
    requires k < |steps| && Play(s, steps[..k]).Ok? && Exec(Play(s, steps[..k]).value, steps[k]).Err?
    ensures Play(s, steps) == Err(Exec(Play(s, steps[..k]).value, steps[k]).error)
  {
    PlayOne(s, steps[..k], steps[k]);
    PlayErr(s, steps[..k] + [steps[k]], steps[k + 1..]);
    assert steps == (steps[..k] + [steps[k]]) + steps[k + 1..];
  }

  lemma PlayErr(s: Store, a: seq<Step>, b: seq<Step>)
    requires Play(s, a).Err?
    ensures Play(s, a + b) == Play(s, a)
  {
    PlayAppend(s, a, b);
  }

  // ----- Integrity -----

  lemma UnitUpsertKeepsKeys(units: map<string, Unit>, e: UnitEntry)
    requires UnitKeysUnique(units)
    requires e.spec.code in units || !Taken(units, e.spec)
    ensures UnitKeysUnique(Upsert(units, e.spec.code, e, UnitRow))
  {
  }

  lemma PlacementsKeepKeys(table: set<UnitMedia>, rows: seq<UnitMedia>)
    requires PlacementKeysUnique(table) && Insertable(rows, table)
    ensures PlacementKeysUnique(table + RowSet(rows))
  {
  }

  lemma KeptAreStored(blocks: seq<Block>)
    ensures forall b :: b in Kept(blocks) ==> b in blocks
  {
    forall b | b in Kept(blocks)
      ensures b in blocks
    {
      FilterMembers(blocks, b => !IsSeeded(b), b);
    }
  }

  lemma ExecKeepsRefs(s: Store, step: Step)
    requires RefsResolve(s) && Exec(s, step).Ok?
    ensures RefsResolve(Exec(s, step).value)
  {
    if step.ClearBlocks? {
      KeptAreStored(s.blocks);
    }
  }

  lemma ExecKeepsKeys(s: Store, step: Step)
    requires KeysUnique(s) && Exec(s, step).Ok?
    ensures KeysUnique(Exec(s, step).value)
  {
    match step
    case UpsertUnit(e) => UnitUpsertKeepsKeys(s.units, e);
    case CreateUnitMedia(rows) => PlacementsKeepKeys(s.unitMedia, rows);
    case _ =>
  }

  lemma ExecKeepsChecks(s: Store, step: Step)
    requires ChecksHold(s) && Exec(s, step).Ok?
    ensures ChecksHold(Exec(s, step).value)
  {
    if step.ClearBlocks? {
      KeptAreStored(s.blocks);
    }
  }

  /** No committed call leaves a dangling reference, a duplicate key or a bad column. */
  lemma ExecKeepsIntegrity(s: Store, step: Step)
    requires Integrity(s) && Exec(s, step).Ok?
    ensures Integrity(Exec(s, step).value)
  {
    ExecKeepsRefs(s, step);
    ExecKeepsKeys(s, step);
    ExecKeepsChecks(s, step);
  }

  lemma {:induction false} PlayKeepsIntegrity(s: Store, steps: seq<Step>)
    requires Integrity(s) && Play(s, steps).Ok?
    ensures Integrity(Play(s, steps).value)
  {
    if steps != [] {
      var n := |steps| - 1;
      PlayKeepsIntegrity(s, steps[..n]);
      ExecKeepsIntegrity(Play(s, steps[..n]).value, steps[n]);
    }
  }
}
