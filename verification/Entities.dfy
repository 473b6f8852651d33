/** The tables the seed touches (prisma/schema.prisma).
    Rows are stored under the unique key by which the seed finds them, and refer
    to each other by those keys: generated ids never change once a row exists, so a
    key stands for its id. Locations keep their id, because the pair
    (parentId, slugVi) is not unique for root rows: NULL parents never clash.
    Money is in hundredths of a dong, the scale of a Decimal(12, 2) column. */
module Entities {
  import opened Basics

  datatype Permission = Permission(description: Option<string>)

  datatype Role = Role(name: string)

  datatype LocationKind = Country | City | District | Area | Landmark

  datatype ContentStatus = DraftContent | PublishedContent | ArchivedContent

  datatype Location = Location(
    parent: Option<int>, kind: LocationKind, nameVi: string, nameEn: string,
    slugVi: string, slugEn: string, status: ContentStatus)

  datatype PropertyStatus = DraftProperty | ActiveProperty | InactiveProperty | ArchivedProperty

  datatype Property = Property(
    name: string, slugEn: string, descriptionVi: string, descriptionEn: string,
    location: int, address: string, checkInTime: string, checkOutTime: string,
    status: PropertyStatus, publishedAt: Option<int>)

  datatype UnitStatus = DraftUnit | PublishedUnit | TempUnavailable | InactiveUnit | ArchivedUnit

  datatype Rooms = Rooms(
    bedrooms: int, bathrooms: int, beds: int, maxGuests: int, area: int, viewType: Option<string>)

  datatype Unit = Unit(
    property: string, internalCode: string, slugVi: string, slugEn: string,
    nameVi: string, nameEn: string, rooms: Rooms,
    basePrice: int, currency: string, cleaningFee: int, serviceFeeRate: int, depositRate: int,
    status: UnitStatus, publishedAt: Option<int>)

  datatype Media = Media(
    url: string, width: Option<int>, height: Option<int>, mimeType: string, fileSize: int,
    altVi: Option<string>, altEn: Option<string>, captionVi: Option<string>, captionEn: Option<string>)

  datatype MediaKind = Image | Video | FloorPlan

  datatype UnitMedia = UnitMedia(unit: string, media: string, sortOrder: int, kind: MediaKind)

  datatype BlockState = Available | Hold | Booked | Blocked | Maintenance

  datatype Block = Block(
    unit: string, startDate: int, endDate: int, state: BlockState,
    reason: Option<string>, createdBy: Option<string>)

  datatype Rate = Rate(amount: int, minStay: Option<int>)

  datatype User = User(passwordHash: string, firstName: string, lastName: string, active: bool, tokenVersion: int)

  datatype Store = Store(
    permissions: map<string, Permission>,
    roles: map<string, Role>,
    grants: set<(string, string)>,
    locations: map<int, Location>,
    properties: map<string, Property>,
    units: map<string, Unit>,
    media: map<string, Media>,
    unitMedia: set<UnitMedia>,
    blocks: seq<Block>,
    rates: map<(string, int), Rate>,
    users: map<string, User>,
    userRoles: set<(string, string)>)

  /** What makes an awaited call throw. */
  datatype DbError = UniqueViolation | ForeignKeyViolation | CheckViolation | NumericOverflow | PasswordTooShort

  // ----- Constraints of the schema -----

  /** The value range of a Decimal(12, 2) column. */
  predicate Fits(amount: int) {
    -1_000_000_000_000 < amount < 1_000_000_000_000
  }

  /** Two rows that one of the secondary unique keys of Unit keeps apart. */
  predicate UnitsClash(a: Unit, b: Unit) {
    a.internalCode == b.internalCode || a.slugVi == b.slugVi || a.slugEn == b.slugEn
  }

  /** The primary key and the (unitId, sortOrder) key of UnitMedia. */
  predicate PlacementsClash(a: UnitMedia, b: UnitMedia) {
    a.unit == b.unit && (a.media == b.media || a.sortOrder == b.sortOrder)
  }

  ghost predicate PairsResolve(pairs: set<(string, string)>, left: set<string>, right: set<string>) {
    forall g :: g in pairs ==> g.0 in left && g.1 in right
  }

  ghost predicate ParentsResolve(locations: map<int, Location>) {
    forall l :: l in locations && locations[l].parent.Some? ==> locations[l].parent.value in locations
  }

  ghost predicate PropertiesResolve(properties: map<string, Property>, locations: set<int>) {
    forall p :: p in properties ==> properties[p].location in locations
  }

  ghost predicate UnitsResolve(units: map<string, Unit>, properties: set<string>) {
    forall u :: u in units ==> units[u].property in properties
  }

  ghost predicate PlacementsResolve(table: set<UnitMedia>, units: set<string>, media: set<string>) {
    forall m :: m in table ==> m.unit in units && m.media in media
  }

  ghost predicate BlocksResolve(blocks: seq<Block>, units: set<string>) {
    forall b :: b in blocks ==> b.unit in units
  }

  ghost predicate RatesResolve(rates: map<(string, int), Rate>, units: set<string>) {
    forall r :: r in rates ==> r.0 in units
  }

  /** Every reference in the store resolves. */
  ghost predicate RefsResolve(s: Store) {
    && PairsResolve(s.grants, s.roles.Keys, s.permissions.Keys)
    && ParentsResolve(s.locations)
    && PropertiesResolve(s.properties, s.locations.Keys)
    && UnitsResolve(s.units, s.properties.Keys)
    && PlacementsResolve(s.unitMedia, s.units.Keys, s.media.Keys)
    && BlocksResolve(s.blocks, s.units.Keys)
    && RatesResolve(s.rates, s.units.Keys)
    && PairsResolve(s.userRoles, s.users.Keys, s.roles.Keys)
  }

  ghost predicate PropertyKeysUnique(properties: map<string, Property>) {
    forall p, q :: p in properties && q in properties && p != q ==> properties[p].slugEn != properties[q].slugEn
  }

  ghost predicate UnitKeysUnique(units: map<string, Unit>) {
    forall u, v :: u in units && v in units && u != v ==> !UnitsClash(units[u], units[v])
  }

  ghost predicate PlacementKeysUnique(table: set<UnitMedia>) {
    forall m, n :: m in table && n in table && m != n ==> !PlacementsClash(m, n)
  }

  /** Secondary unique keys hold. */
  ghost predicate KeysUnique(s: Store) {
    PropertyKeysUnique(s.properties) && UnitKeysUnique(s.units) && PlacementKeysUnique(s.unitMedia)
  }

  ghost predicate IntervalsValid(blocks: seq<Block>) {
    forall b :: b in blocks ==> b.startDate < b.endDate
  }

  ghost predicate AmountsFit(rates: map<(string, int), Rate>) {
    forall r :: r in rates ==> Fits(rates[r].amount)
  }

  /** Column checks hold. */
  ghost predicate ChecksHold(s: Store) {
    IntervalsValid(s.blocks) && AmountsFit(s.rates)
  }

  ghost predicate Integrity(s: Store) {
    RefsResolve(s) && KeysUnique(s) && ChecksHold(s)
  }
}
