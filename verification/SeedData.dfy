/** The literals of the seed, and the proof that they meet what the model asks of a configuration. */
module SeedData {
  import opened Basics
  import opened Entities
  import opened SeedConfig
  import opened Ordering
  import opened Steps
  import opened Plan
  import opened Run

  const PERMISSIONS: seq<string> := [
    "booking.read", "booking.create", "booking.update", "booking.cancel", "booking.checkin",
    "booking.checkout", "customer.read", "customer.create", "customer.update", "property.read",
    "property.create", "property.update", "property.publish", "unit.read", "unit.create",
    "unit.update", "unit.publish", "availability.read", "availability.update", "pricing.read",
    "pricing.update", "payment.read", "payment.confirm", "payment.refund", "seo.read",
    "seo.metadata.update", "seo.publish", "seo.redirect.manage", "seo.sitemap.read", "seo.audit.read",
    "content.blog.manage", "content.landing.manage", "staff.manage", "report.read"]

  const STAFF_CODES: set<string> := {
    "booking.read", "booking.create", "booking.update", "booking.cancel", "booking.checkin",
    "booking.checkout", "customer.read", "customer.create", "customer.update", "availability.read",
    "pricing.read", "payment.read", "payment.confirm", "unit.read", "property.read"}

  const PANOMA := PropertySpec(
    "ABC Apartment", "panoma",
    "Căn hộ dịch vụ hiện đại tại Đà Nẵng.", "Modern serviced apartments in Da Nang.",
    "Mỹ An, Ngũ Hành Sơn, Đà Nẵng", "14:00", "11:00")

  const FLAGSHIP := Flagship(
    "PANO-2BR-01", "Panoma 2PN View Biển", "Panoma 2BR Ocean View", "panoma-2pn-view-bien-01",
    "panoma-2br-ocean-view-01", Rooms(2, 2, 2, 4, 82_00, Some("OCEAN")), 1450000_00)

  const DEMO_UNITS: seq<UnitSpec> := [
    Demo("TT-STUDIO-02", "TT Studio Ban Công", "TT Studio with Balcony",
         Rooms(1, 1, 1, 2, 38_00, Some("CITY")), 720000_00),
    Demo("TT-STUDIO-03", "TT Studio Tiêu Chuẩn", "TT Standard Studio",
         Rooms(1, 1, 1, 2, 34_00, Some("CITY")), 650000_00),
    Demo("TT-1BR-04", "TT Căn Hộ 1PN", "TT One Bedroom Apartment",
         Rooms(1, 1, 1, 3, 52_00, Some("CITY")), 890000_00),
    Demo("TT-1BR-05", "TT 1PN Ban Công", "TT One Bedroom Balcony",
         Rooms(1, 1, 1, 3, 58_00, Some("CITY")), 990000_00),
    Demo("TT-1BR-06", "TT 1PN View Biển", "TT One Bedroom Ocean View",
         Rooms(1, 1, 1, 3, 60_00, Some("OCEAN")), 1150000_00),
    Demo("TT-2BR-07", "TT Căn Hộ 2PN", "TT Two Bedroom Apartment",
         Rooms(2, 2, 2, 4, 78_00, Some("CITY")), 1350000_00),
    Demo("TT-2BR-08", "TT 2PN Gia Đình", "TT Family Two Bedroom",
         Rooms(2, 2, 3, 5, 86_00, Some("CITY")), 1580000_00),
    Demo("TT-2BR-09", "TT 2PN View Biển", "TT Two Bedroom Ocean View",
         Rooms(2, 2, 2, 4, 88_00, Some("OCEAN")), 1720000_00),
    Demo("TT-3BR-10", "TT Căn Hộ 3PN", "TT Three Bedroom Apartment",
         Rooms(3, 2, 3, 6, 112_00, Some("OCEAN")), 2250000_00)]

  /** Links and alternative texts do not matter to the model. */
  const IMAGES: seq<ImageSpec> := [
    ImageSpec("seed/panorama-01.jpg", "", 800, 400, "", "ABC Apartment panorama 1"),
    ImageSpec("seed/panorama-02.jpg", "", 800, 450, "", "ABC Apartment panorama 2"),
    ImageSpec("seed/panorama-03.jpg", "", 800, 450, "", "ABC Apartment panorama 3")]

  /** The day before 2026-09-01, in days from 1970-01-01. */
  const AUGUST_END := 20696

  const TEMPLATES: seq<Template> := [
    Template(AUGUST_END + 3, AUGUST_END + 7, BLOCK_PREFIX + " booking giả lập 01"),
    Template(AUGUST_END + 10, AUGUST_END + 15, BLOCK_PREFIX + " bảo trì 02"),
    Template(AUGUST_END + 18, AUGUST_END + 23, BLOCK_PREFIX + " booking giả lập 03"),
    Template(AUGUST_END + 1, AUGUST_END + 31, BLOCK_PREFIX + " khóa cả tháng 04"),
    Template(AUGUST_END + 25, AUGUST_END + 29, BLOCK_PREFIX + " bảo trì 05")]

  const DAYS: seq<Day> := [
    Day(AUGUST_END + 4, 115), Day(AUGUST_END + 5, 120), Day(AUGUST_END + 11, 115),
    Day(AUGUST_END + 12, 120), Day(AUGUST_END + 18, 115), Day(AUGUST_END + 19, 120)]

  function TheSeed(adminEmail: Option<string>, adminPassword: Option<string>): Config {
    Config(PERMISSIONS, STAFF_CODES, PANOMA, FLAGSHIP, DEMO_UNITS, IMAGES, TEMPLATES, DAYS,
           adminEmail, adminPassword, LexLess)
  }

  // ----- Unit keys: the i-th unit's code and slugs all end in the i-th digit -----

  predicate EndsIn(s: string, c: char) {
    s != [] && s[|s| - 1] == c
  }

  ghost predicate KeysEnd(u: UnitSpec, c: char) {
    EndsIn(u.code, c) && EndsIn(u.InternalCode(), c) && EndsIn(u.SlugVi(), c) && EndsIn(u.SlugEn(), c)
  }

  const DIGITS: seq<char> := ['1', '2', '3', '4', '5', '6', '7', '8', '9', '0']

  lemma DemoEnding(u: UnitSpec, c: char)
    requires u.Demo? && EndsIn(u.code, c) && !('A' <= c <= 'Z')
    ensures EndsIn(u.InternalCode(), c) && EndsIn(u.SlugVi(), c) && EndsIn(u.SlugEn(), c)
  {
  }

  lemma FlagshipEnding()
    ensures EndsIn(FLAGSHIP.code, '1') && EndsIn(FLAGSHIP.InternalCode(), '1')
    ensures EndsIn(FLAGSHIP.SlugVi(), '1') && EndsIn(FLAGSHIP.SlugEn(), '1')
  {
    assert FLAGSHIP.code[10] == '1';
  }

  lemma CodeEnding(i: nat)
    requires i < |DEMO_UNITS|
    ensures DEMO_UNITS[i].Demo? && EndsIn(DEMO_UNITS[i].code, DIGITS[i + 1])
  {
  }

  lemma UnitEnding(cfg: Config, i: nat)
    requires cfg.flagship == FLAGSHIP && cfg.demoUnits == DEMO_UNITS && i < |cfg.Units()|
    ensures i < |DIGITS|
    ensures var u := cfg.Units()[i];
            KeysEnd(u, DIGITS[i])
  {
    if i == 0 {
      FlagshipEnding();
    } else {
      CodeEnding(i - 1);
      DemoEnding(cfg.Units()[i], DIGITS[i]);
    }
  }

  lemma PriceFits(base: int, percent: int)
    requires 0 <= base <= 1_000_000_000 && 0 <= percent <= 200
    ensures Fits(Scaled(base, percent))
  {
    assert 0 <= base * percent <= 1_000_000_000 * percent;
  }

  lemma UnitsPriced(cfg: Config)
    requires cfg.flagship == FLAGSHIP && cfg.demoUnits == DEMO_UNITS && cfg.days == DAYS
    ensures forall u :: u in cfg.Units() ==> PricesFit(u.basePrice, cfg.days)
  {
    forall u, d | u in cfg.Units() && d in cfg.days
      ensures Fits(Scaled(u.basePrice, d.percent))
    {
      PriceFits(u.basePrice, d.percent);
    }
  }

  lemma EndsApart(a: UnitSpec, b: UnitSpec, c: char, d: char)
    requires KeysEnd(a, c) && KeysEnd(b, d) && c != d
    ensures a.code != b.code && !SpecsClash(a, b)
  {
  }

  lemma UnitsDistinct(units: seq<UnitSpec>, ends: seq<char>)
    requires |units| <= |ends| && Distinct(ends)
    requires forall i :: 0 <= i < |units| ==> KeysEnd(units[i], ends[i])
    ensures forall i, j :: 0 <= i < j < |units| ==> units[i].code != units[j].code && !SpecsClash(units[i], units[j])
  {
    forall i, j | 0 <= i < j < |units|
      ensures units[i].code != units[j].code && !SpecsClash(units[i], units[j])
    {
      EndsApart(units[i], units[j], ends[i], ends[j]);
    }
  }

  lemma DigitsDistinct()
    ensures Distinct(DIGITS) && |DIGITS| == 10
  {
  }

  lemma AllUnitsEnd(cfg: Config)
    requires cfg.flagship == FLAGSHIP && cfg.demoUnits == DEMO_UNITS
    ensures |cfg.Units()| <= |DIGITS|
    ensures forall i :: 0 <= i < |cfg.Units()| ==> KeysEnd(cfg.Units()[i], DIGITS[i])
  {
    assert |cfg.Units()| == 10;
    forall i | 0 <= i < |cfg.Units()|
      ensures KeysEnd(cfg.Units()[i], DIGITS[i])
    {
      UnitEnding(cfg, i);
    }
  }

  lemma ImagesDistinct()
    ensures forall i, j :: 0 <= i < j < |IMAGES| ==> IMAGES[i].storageKey != IMAGES[j].storageKey
  {
    assert IMAGES[0].storageKey[15] == '1';
    assert IMAGES[1].storageKey[15] == '2';
    assert IMAGES[2].storageKey[15] == '3';
  }

  lemma TemplatesValid()
    ensures forall t :: t in TEMPLATES ==> t.startDate < t.endDate && StartsWith(t.reason, BLOCK_PREFIX)
  {
  }

  lemma DaysDistinct()
    ensures forall i, j :: 0 <= i < j < |DAYS| ==> DAYS[i].date != DAYS[j].date
  {
  }

  lemma DemoUnitsAreDemo()
    ensures forall u :: u in DEMO_UNITS ==> u.Demo?
  {
    forall u | u in DEMO_UNITS
      ensures u.Demo?
    {
      var i :| 0 <= i < |DEMO_UNITS| && DEMO_UNITS[i] == u;
      CodeEnding(i);
    }
  }

  /** The theorems of the model apply to the seed as written, whatever the admin variables. */
  lemma LiteralsWellFormed(email: Option<string>, password: Option<string>)
    ensures WellFormed(TheSeed(email, password))
  {
    var cfg := TheSeed(email, password);
    DemoUnitsAreDemo();
    DigitsDistinct();
    AllUnitsEnd(cfg);
    UnitsDistinct(cfg.Units(), DIGITS);
    UnitsPriced(cfg);
    ImagesDistinct();
    TemplatesValid();
    DaysDistinct();
    LexIsStrictTotal();
  }

  // ----- Databases on which the seed throws -----

  /** The database is sound, and every run of the seed on it throws. */
  ghost predicate Throws(s: Store, cfg: Config, error: DbError) {
    && Integrity(s)
    && forall e: Env, order :: Schedule(order, cfg) && CityChoice(s, e.city) ==>
         Play(s, Script(s, cfg, e, order)) == Err(error)
  }

  lemma VerdictThrows(s: Store, cfg: Config, error: DbError)
    requires WellFormed(cfg) && Integrity(s)
    requires forall e :: Verdict(s, cfg, e) == Err(error)
    ensures Throws(s, cfg, error)
  {
    forall e: Env, order | Schedule(order, cfg) && CityChoice(s, e.city)
      ensures Play(s, Script(s, cfg, e, order)) == Err(error)
    {
      RunOutcome(s, cfg, e, order);
    }
  }

  /** A unit slug already in use stops the run. */
  lemma UnitSlugInUse(s: Store, cfg: Config, u: UnitSpec, c: string)
    requires WellFormed(cfg) && Integrity(s)
    requires u in cfg.Units() && u.code !in s.units && c in s.units && s.units[c].slugVi == u.SlugVi()
    ensures Throws(s, cfg, UniqueViolation)
  {
    assert Taken(s.units, u);
    assert !UnitsFree(s, cfg);
    VerdictThrows(s, cfg, UniqueViolation);
  }

  /** So does the English slug of the property. */
  lemma PropertySlugInUse(s: Store, cfg: Config, p: string)
    requires WellFormed(cfg) && Integrity(s)
    requires PROPERTY_SLUG !in s.properties && p in s.properties && s.properties[p].slugEn == cfg.property.slugEn
    ensures Throws(s, cfg, UniqueViolation)
  {
    assert !PropertyFree(s, cfg);
    VerdictThrows(s, cfg, UniqueViolation);
  }

  /** A unit of the property whose multiplied price leaves the column stops it in the rate loop. */
  lemma UnitTooDear(s: Store, cfg: Config, c: string, d: Day)
    requires WellFormed(cfg) && Integrity(s) && PropertyFree(s, cfg) && UnitsFree(s, cfg)
    requires c in Members(s.units) && !cfg.Seeds(c) && d in cfg.days && !Fits(Scaled(s.units[c].basePrice, d.percent))
    ensures Throws(s, cfg, NumericOverflow)
  {
    assert !MembersPriced(s, cfg);
    VerdictThrows(s, cfg, NumericOverflow);
  }

  const EMPTY := Store(map[], map[], {}, map[], map[], map[], map[], {}, [], map[], map[], {})

  /** On an empty database only a short password does. */
  lemma EmptyDatabase(cfg: Config)
    requires WellFormed(cfg)
    ensures if PasswordOk(cfg) then Completable(EMPTY, cfg) else Throws(EMPTY, cfg, PasswordTooShort)
  {
    if !PasswordOk(cfg) {
      VerdictThrows(EMPTY, cfg, PasswordTooShort);
    }
  }

  lemma SevenIsShort()
    ensures !PasswordOk(TheSeed(Some("admin@abc.vn"), Some("1234567")))
  {
  }

  /** A sound database with one unit: its property's slugs, its slug and its price. */
  function OneRoom(slugVi: string, slugEn: string, slug: string, price: int): Store {
    var city := Location(None, City, "Hue", "Hue", "hue", "hue", PublishedContent);
    var house := Property("House", slugEn, "", "", 1, "", "14:00", "11:00", ActiveProperty, None);
    var room := Unit(slugVi, "ROOM", slug, "room", "", "", Rooms(1, 1, 1, 2, 20_00, None),
                     price, CURRENCY, 0, 0, 0, PublishedUnit, None);
    EMPTY.(locations := map[1 := city], properties := map[slugVi := house], units := map["ROOM" := room])
  }

  lemma OneRoomIsSound(slugVi: string, slugEn: string, slug: string, price: int)
    ensures Integrity(OneRoom(slugVi, slugEn, slug, price))
  {
  }

  const DEMO_SLUG := "tt-studio-02"
  const DEAR := 900_000_000_000

  lemma FirstSlug()
    ensures Lower("TT-STUDIO-02") == "tt-studio-02"
  {
  }

  lemma FirstDemoUnit(cfg: Config) returns (u: UnitSpec)
    requires cfg.demoUnits == DEMO_UNITS
    ensures u in cfg.Units() && u.Demo? && u.SlugVi() == DEMO_SLUG && u.code != "ROOM"
  {
    u := DEMO_UNITS[0];
    assert cfg.Units()[1] == u;
    assert u.code[0] != "ROOM"[0];
    FirstSlug();
  }

  ghost predicate NoKeyEnds(units: map<string, Unit>, c: char) {
    forall k :: k in units ==>
      !EndsIn(k, c) && !EndsIn(units[k].internalCode, c) && !EndsIn(units[k].slugVi, c) && !EndsIn(units[k].slugEn, c)
  }

  lemma EndingApart(units: map<string, Unit>, u: UnitSpec, c: char)
    requires KeysEnd(u, c) && NoKeyEnds(units, c)
    ensures u.code !in units && !Taken(units, u)
  {
  }

  /** Every key of the seed's units ends in a digit. */
  lemma DigitsApart(s: Store, cfg: Config)
    requires cfg.flagship == FLAGSHIP && cfg.demoUnits == DEMO_UNITS
    requires forall i :: 0 <= i < |DIGITS| ==> NoKeyEnds(s.units, DIGITS[i])
    ensures UnitsFree(s, cfg) && forall c :: c in s.units ==> !cfg.Seeds(c)
  {
    AllUnitsEnd(cfg);
    forall i | 0 <= i < |cfg.Units()|
      ensures cfg.Units()[i].code !in s.units && !Taken(s.units, cfg.Units()[i])
    {
      EndingApart(s.units, cfg.Units()[i], DIGITS[i]);
    }
  }

  lemma RoomEnding(slugVi: string, slugEn: string, price: int, i: nat)
    requires i < |DIGITS|
    ensures NoKeyEnds(OneRoom(slugVi, slugEn, "room", price).units, DIGITS[i])
  {
    assert '0' <= DIGITS[i] <= '9';
  }

  lemma DearOverflows(cfg: Config) returns (d: Day)
    requires cfg.days == DAYS
    ensures d in cfg.days && !Fits(Scaled(DEAR, d.percent))
  {
    d := DAYS[0];
  }

  lemma RoomApart(cfg: Config, price: int)
    requires cfg.flagship == FLAGSHIP && cfg.demoUnits == DEMO_UNITS
    ensures UnitsFree(OneRoom(PROPERTY_SLUG, PROPERTY_SLUG, "room", price), cfg) && !cfg.Seeds("ROOM")
  {
    var s := OneRoom(PROPERTY_SLUG, PROPERTY_SLUG, "room", price);
    forall i | 0 <= i < |DIGITS|
      ensures NoKeyEnds(s.units, DIGITS[i])
    {
      RoomEnding(PROPERTY_SLUG, PROPERTY_SLUG, price, i);
    }
    DigitsApart(s, cfg);
    assert "ROOM" in s.units;
  }

  lemma DearRoom(cfg: Config, price: int, d: Day)
    requires WellFormed(cfg) && d in cfg.days && !Fits(Scaled(price, d.percent)) && !cfg.Seeds("ROOM")
    requires UnitsFree(OneRoom(PROPERTY_SLUG, PROPERTY_SLUG, "room", price), cfg)
    ensures Throws(OneRoom(PROPERTY_SLUG, PROPERTY_SLUG, "room", price), cfg, NumericOverflow)
  {
    OneRoomIsSound(PROPERTY_SLUG, PROPERTY_SLUG, "room", price);
    UnitTooDear(OneRoom(PROPERTY_SLUG, PROPERTY_SLUG, "room", price), cfg, "ROOM", d);
  }

  lemma RoomTooDear(cfg: Config)
    requires WellFormed(cfg) && cfg.flagship == FLAGSHIP && cfg.demoUnits == DEMO_UNITS && cfg.days == DAYS
    ensures Throws(OneRoom(PROPERTY_SLUG, PROPERTY_SLUG, "room", DEAR), cfg, NumericOverflow)
  {
    RoomApart(cfg, DEAR);
    var d := DearOverflows(cfg);
    DearRoom(cfg, DEAR, d);
  }

  lemma RoomTakesUnitSlug(cfg: Config)
    requires WellFormed(cfg) && cfg.demoUnits == DEMO_UNITS
    ensures Throws(OneRoom("house", "house", DEMO_SLUG, 500000_00), cfg, UniqueViolation)
  {
    var u := FirstDemoUnit(cfg);
    OneRoomIsSound("house", "house", DEMO_SLUG, 500000_00);
    UnitSlugInUse(OneRoom("house", "house", DEMO_SLUG, 500000_00), cfg, u, "ROOM");
  }

  lemma HouseTakesSlug(cfg: Config)
    requires WellFormed(cfg)
    ensures Throws(OneRoom("house", cfg.property.slugEn, "room", 500000_00), cfg, UniqueViolation)
  {
    OneRoomIsSound("house", cfg.property.slugEn, "room", 500000_00);
    PropertySlugInUse(OneRoom("house", cfg.property.slugEn, "room", 500000_00), cfg, "house");
  }

  /** The seed does not complete on every sound database, and each way to throw occurs: a unit's slug
      is in use, the property's English slug is, a unit is too dear, the password is short. */
  lemma SeedMayThrow(email: Option<string>, password: Option<string>)
    ensures Fits(DEAR) && !PasswordOk(TheSeed(Some("admin@abc.vn"), Some("1234567")))
    ensures var cfg := TheSeed(email, password);
      && Throws(OneRoom("house", "house", DEMO_SLUG, 500000_00), cfg, UniqueViolation)
      && Throws(OneRoom("house", cfg.property.slugEn, "room", 500000_00), cfg, UniqueViolation)
      && Throws(OneRoom(PROPERTY_SLUG, PROPERTY_SLUG, "room", DEAR), cfg, NumericOverflow)
      && (if PasswordOk(cfg) then Completable(EMPTY, cfg) else Throws(EMPTY, cfg, PasswordTooShort))
  {
    var cfg := TheSeed(email, password);
    LiteralsWellFormed(email, password);
    RoomTakesUnitSlug(cfg);
    HouseTakesSlug(cfg);
    RoomTooDear(cfg);
    EmptyDatabase(cfg);
    SevenIsShort();
  }
}
