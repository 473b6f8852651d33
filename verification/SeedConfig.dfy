/** What the seed is told to install: its literal arrays, generalised, and the
    answers of its environment. */
module SeedConfig {
  import opened Basics
  import opened Entities
  import opened Ordering

  const OWNER := "ADMIN_OWNER"
  const STAFF := "STAFF"
  const CITY_SLUG := "da-nang"
  const PROPERTY_SLUG := "panoma"
  const BLOCK_PREFIX := "SEED-SEP-2026"
  const MIN_STAY := 2
  const FLAGSHIP_CLEANING_FEE := 200_000_00
  const DEMO_CLEANING_FEE := 150_000_00
  const SERVICE_FEE_RATE := 500    // 0.05, in ten-thousandths
  const DEPOSIT_RATE := 3000       // 0.3
  const CURRENCY := "VND"
  const MIN_PASSWORD := 8

  datatype PropertySpec = PropertySpec(
    name: string, slugEn: string, descriptionVi: string, descriptionEn: string,
    address: string, checkInTime: string, checkOutTime: string)

  /** The flagship unit and the demo units carry different update payloads. */
  datatype UnitSpec =
    | Flagship(code: string, nameVi: string, nameEn: string, ownSlugVi: string, ownSlugEn: string,
               rooms: Rooms, basePrice: int)
    | Demo(code: string, nameVi: string, nameEn: string, rooms: Rooms, basePrice: int)
  {
    function InternalCode(): string {
      "INT-" + code
    }

    function SlugVi(): string {
      if Flagship? then ownSlugVi else Lower(code)
    }

    function SlugEn(): string {
      if Flagship? then ownSlugEn else Lower(code)
    }
  }

  datatype ImageSpec = ImageSpec(storageKey: string, url: string, width: int, height: int, altVi: string, altEn: string)

  datatype Template = Template(startDate: int, endDate: int, reason: string)

  /** A date and its price multiplier in percent. */
  datatype Day = Day(date: int, percent: int)

  datatype Config = Config(
    permissions: seq<string>,
    staffCodes: set<string>,
    property: PropertySpec,
    flagship: UnitSpec,
    demoUnits: seq<UnitSpec>,
    images: seq<ImageSpec>,
    templates: seq<Template>,
    days: seq<Day>,
    adminEmail: Option<string>,
    adminPassword: Option<string>,
    less: (string, string) -> bool)
  {
    function Units(): seq<UnitSpec> {
      [flagship] + demoUnits
    }

    ghost predicate Seeds(code: string) {
      exists i :: 0 <= i < |Units()| && Units()[i].code == code
    }
  }

  /** The answers one run gets from outside the store: the city row it finds or the id
      generated for it, the clock at each create, and the salted password hash. */
  datatype Env = Env(city: int, propertyStamp: int, unitStamp: string -> int, passwordHash: string)

  datatype Credentials = Credentials(email: string, password: string)

  /** Both variables set and non-empty, or no admin at all. */
  function Admin(cfg: Config): Option<Credentials> {
    if cfg.adminEmail.Some? && cfg.adminPassword.Some?
       && Lower(cfg.adminEmail.value) != "" && cfg.adminPassword.value != ""
    then Some(Credentials(Lower(cfg.adminEmail.value), cfg.adminPassword.value))
    else None
  }

  /** base * percent / 100, rounded half away from zero to the column's scale. */
  function Scaled(base: int, percent: int): (r: int)
    ensures Rounded(base * percent, r)
  {
    var p := base * percent;
    if p >= 0 then (p + 50) / 100 else -((-p + 50) / 100)
  }

  /** Every listed date has a storable price for this base. */
  ghost predicate PricesFit(base: int, days: seq<Day>) {
    forall d :: d in days ==> Fits(Scaled(base, d.percent))
  }

  ghost predicate SpecsClash(a: UnitSpec, b: UnitSpec) {
    a.InternalCode() == b.InternalCode() || a.SlugVi() == b.SlugVi() || a.SlugEn() == b.SlugEn()
  }

  /** What the literals of the seed satisfy (SeedData.LiteralsWellFormed). */
  ghost predicate WellFormed(cfg: Config) {
    && cfg.flagship.Flagship?
    && (forall u :: u in cfg.demoUnits ==> u.Demo?)
    && (forall i, j :: 0 <= i < j < |cfg.Units()| ==>
          cfg.Units()[i].code != cfg.Units()[j].code && !SpecsClash(cfg.Units()[i], cfg.Units()[j]))
    && (forall u :: u in cfg.Units() ==> PricesFit(u.basePrice, cfg.days))
    && (forall i, j :: 0 <= i < j < |cfg.images| ==> cfg.images[i].storageKey != cfg.images[j].storageKey)
    && (forall t :: t in cfg.templates ==> t.startDate < t.endDate && StartsWith(t.reason, BLOCK_PREFIX))
    && (forall i, j :: 0 <= i < j < |cfg.days| ==> cfg.days[i].date != cfg.days[j].date)
    && StrictTotal(cfg.less)
  }
}
