/** The calls of a run against the columns they are for: every run, and every run after any
    history of interrupted ones, ends as module Columns says, and in no other way. */
module Effects {
  import opened Basics
  import opened Entities
  import opened SeedConfig
  import opened Columns
  import opened Ordering
  import opened Steps
  import opened Plan
  import opened Run
  import opened Restart
  import opened Guarantees

  // ----- The target -----

  lemma CityChoiceIsAnswer(s: Store, id: int)
    ensures CityChoice(s, id) <==> CityAnswer(s.locations, id)
  {
    RootsAreRootCities(s.locations);
  }

  lemma FirstHalf(s: Store, cfg: Config, e: Env)
    requires WellFormed(cfg) && CityAnswer(s.locations, e.city)
    ensures FirstHalfLeft(s, Target(s, cfg, e), cfg, e)
  {
    PermissionsExact(s.permissions, cfg.permissions);
    RolesExact(s.roles);
    RoleGrants(s, cfg, e);
    CityExact(s, cfg, e);
    PropertiesExact(s.properties, cfg, e);
    CatalogExact(s, cfg, e);
  }

  lemma SecondHalf(s: Store, cfg: Config, e: Env)
    requires WellFormed(cfg)
    ensures SecondHalfLeft(s, Target(s, cfg, e), cfg, e, Listing(Target(s, cfg, e).units, cfg))
  {
    ListingExact(s, cfg, e);
    MediaExact(s, cfg, e);
    GalleryShown(s, cfg, e);
    BlocksCounted(s, cfg, e);
    NoStalePrices(s, cfg, e);
    AdminExact(s, cfg, e);
  }

  lemma TargetLeaves(s: Store, cfg: Config, e: Env)
    requires WellFormed(cfg) && CityAnswer(s.locations, e.city)
    ensures Leaves(s, Target(s, cfg, e), cfg, e)
  {
    FirstHalf(s, cfg, e);
    SecondHalf(s, cfg, e);
  }

  // ----- Only one store is left -----

  lemma SameTable<K, V>(t: map<K, V>, u: map<K, V>)
    requires forall k :: SameRow(t, u, k)
    ensures t == u
  {
    assert forall k :: k in t ==> SameRow(t, u, k);
    assert forall k :: k in u ==> SameRow(t, u, k);
  }

  lemma AccessOnce(s: Store, t: Store, u: Store, codes: seq<string>)
    requires PermissionsLeft(s.permissions, t.permissions, codes)
    requires PermissionsLeft(s.permissions, u.permissions, codes)
    requires RolesLeft(s.roles, t.roles) && RolesLeft(s.roles, u.roles)
    ensures t.permissions == u.permissions && t.roles == u.roles
  {
    forall k
      ensures SameRow(t.permissions, u.permissions, k) && SameRow(t.roles, u.roles, k)
    {
      assert k in s.permissions || k !in s.permissions;
      assert k in s.roles || k !in s.roles;
    }
    SameTable(t.permissions, u.permissions);
    SameTable(t.roles, u.roles);
  }

  lemma GrantsOnce(s: set<(string, string)>, t: set<(string, string)>, u: set<(string, string)>,
                   permissions: map<string, Permission>, staffCodes: set<string>)
    requires GrantsLeft(s, t, permissions, staffCodes) && GrantsLeft(s, u, permissions, staffCodes)
    ensures t == u
  {
    forall g: (string, string)
      ensures g in t <==> g in u
    {
      assert g == (g.0, g.1);
    }
  }

  lemma PropertiesOnce(s: map<string, Property>, t: map<string, Property>, u: map<string, Property>,
                       spec: PropertySpec, city: int, stamp: int)
    requires PropertiesLeft(s, t, spec, city, stamp) && PropertiesLeft(s, u, spec, city, stamp)
    ensures t == u
  {
    forall k
      ensures SameRow(t, u, k)
    {
      assert k in s || k !in s;
    }
    SameTable(t, u);
  }

  lemma UsersOnce(s: map<string, User>, t: map<string, User>, u: map<string, User>, cfg: Config, hash: string)
    requires UsersLeft(s, t, cfg, hash) && UsersLeft(s, u, cfg, hash)
    ensures t == u
  {
    forall m
      ensures SameRow(t, u, m)
    {
      assert m in s || m !in s;
    }
    SameTable(t, u);
  }

  lemma FirstHalfOnce(s: Store, t: Store, u: Store, cfg: Config, e: Env)
    requires FirstHalfLeft(s, t, cfg, e) && FirstHalfLeft(s, u, cfg, e) && cfg.flagship.Flagship?
    ensures t.permissions == u.permissions && t.roles == u.roles && t.grants == u.grants
    ensures t.locations == u.locations && t.properties == u.properties && t.units == u.units
  {
    AccessOnce(s, t, u, cfg.permissions);
    GrantsOnce(s.grants, t.grants, u.grants, t.permissions, cfg.staffCodes);
    PropertiesOnce(s.properties, t.properties, u.properties, cfg.property, e.city, e.propertyStamp);
    UnitsOnce(s.units, t.units, u.units, cfg, e.unitStamp);
  }

  lemma UnitsOnce(s: map<string, Unit>, t: map<string, Unit>, u: map<string, Unit>, cfg: Config, stamp: string -> int)
    requires UnitsLeft(s, t, cfg, stamp) && UnitsLeft(s, u, cfg, stamp) && cfg.flagship.Flagship?
    ensures t == u
  {
    forall c
      ensures SameRow(t, u, c)
    {
      if Unseeded(cfg, c) {
        assert SameRow(s, t, c) && SameRow(s, u, c);
      } else if c != cfg.flagship.code {
        var spec :| spec in cfg.demoUnits && spec.code == c;
        assert DemoLeft(s, t, spec, Lower(c), stamp(c)) && DemoLeft(s, u, spec, Lower(c), stamp(c));
      }
    }
    SameTable(t, u);
  }

  lemma ListedOnce(a: seq<string>, b: seq<string>, units: map<string, Unit>, less: (string, string) -> bool)
    requires StrictTotal(less) && Listed(a, units, less) && Listed(b, units, less)
    ensures a == b
  {
    ListingUnique(a, b, Members(units), less);
  }

  lemma MediaOnce(s: map<string, Media>, t: map<string, Media>, u: map<string, Media>, images: seq<ImageSpec>)
    requires MediaLeft(s, t, images) && MediaLeft(s, u, images)
    ensures t == u
  {
    forall k
      ensures SameRow(t, u, k)
    {
      if forall x :: x in images ==> x.storageKey != k {
        assert SameRow(s, t, k) && SameRow(s, u, k);
      }
    }
    SameTable(t, u);
  }

  lemma RatesOnce(s: map<(string, int), Rate>, t: map<(string, int), Rate>, u: map<(string, int), Rate>,
                  units: map<string, Unit>, days: seq<Day>)
    requires RatesLeft(s, t, units, days) && RatesLeft(s, u, units, days)
    ensures t == u
  {
    forall k: (string, int)
      ensures SameRow(t, u, k)
    {
      if k.0 in units && units[k.0].property == "panoma" && exists d :: d in days && d.date == k.1 {
        var d :| d in days && d.date == k.1;
        var amount := Scaled(units[k.0].basePrice, d.percent);
        assert RowIs(t, (k.0, d.date), Rate(amount, Some(2))) && RowIs(u, (k.0, d.date), Rate(amount, Some(2)));
      } else {
        assert SameRow(s, t, k) && SameRow(s, u, k);
      }
    }
    SameTable(t, u);
  }

  lemma SecondHalfOnce(s: Store, t: Store, u: Store, cfg: Config, e: Env, a: seq<string>, b: seq<string>)
    requires StrictTotal(cfg.less) && t.units == u.units
    requires SecondHalfLeft(s, t, cfg, e, a) && SecondHalfLeft(s, u, cfg, e, b)
    ensures t.media == u.media && t.unitMedia == u.unitMedia && multiset(t.blocks) == multiset(u.blocks)
    ensures t.rates == u.rates && t.users == u.users && t.userRoles == u.userRoles
  {
    ListedOnce(a, b, t.units, cfg.less);
    MediaOnce(s.media, t.media, u.media, cfg.images);
    RatesOnce(s.rates, t.rates, u.rates, t.units, cfg.days);
    UsersOnce(s.users, t.users, u.users, cfg, e.passwordHash);
  }

  /** The description is complete: two stores it allows differ at most in the order of the blocks. */
  lemma LeavesOnce(s: Store, t: Store, u: Store, cfg: Config, e: Env)
    requires WellFormed(cfg) && Leaves(s, t, cfg, e) && Leaves(s, u, cfg, e)
    ensures t == u.(blocks := t.blocks) && multiset(t.blocks) == multiset(u.blocks)
  {
    var a :| SecondHalfLeft(s, t, cfg, e, a);
    var b :| SecondHalfLeft(s, u, cfg, e, b);
    FirstHalfOnce(s, t, u, cfg, e);
    SecondHalfOnce(s, t, u, cfg, e, a, b);
  }

  // ----- The conditions -----

  lemma UnitKeysMeet(units: map<string, Unit>, spec: UnitSpec)
    ensures (spec.code in units || !Taken(units, spec))
            <==> UnitKeysFree(units, spec.code, spec.SlugVi(), spec.SlugEn())
  {
  }

  lemma KeysMeet(s: Store, cfg: Config)
    requires WellFormed(cfg)
    ensures KeysFree(s, cfg) <==> PropertyFree(s, cfg) && UnitsFree(s, cfg)
  {
    UnitKeysMeet(s.units, cfg.flagship);
    assert cfg.Units()[0] == cfg.flagship;
    forall spec | spec in cfg.demoUnits
      ensures spec in cfg.Units()
      ensures (forall slug :: Lowered(spec.code, slug) ==> UnitKeysFree(s.units, spec.code, slug, slug))
              <==> spec.code in s.units || !Taken(s.units, spec)
    {
      UnitKeysMeet(s.units, spec);
      LowerExact(spec.code);
    }
  }

  lemma FitsBelow(p: int, amount: int)
    requires Rounded(p, amount)
    ensures Fits(amount) <==> -99_999_999_999_950 < p < 99_999_999_999_950
  {
  }

  lemma PricesMeet(s: Store, cfg: Config)
    ensures PricesScale(s, cfg) <==> MembersPriced(s, cfg)
  {
    forall c, d | c in s.units && d in cfg.days
      ensures Unseeded(cfg, c) <==> !cfg.Seeds(c)
      ensures Fits(Scaled(s.units[c].basePrice, d.percent))
              <==> -99_999_999_999_950 < s.units[c].basePrice * d.percent < 99_999_999_999_950
    {
      SeedsOrNot(cfg, c);
      FitsBelow(s.units[c].basePrice * d.percent, Scaled(s.units[c].basePrice, d.percent));
    }
  }

  lemma PasswordMeets(cfg: Config)
    ensures PasswordLong(cfg) <==> PasswordOk(cfg)
  {
    AdminIffConfigured(cfg);
  }

  // ----- Runs -----

  /** Every run, on every store, ends as described. */
  lemma RunEnds(s: Store, cfg: Config, e: Env, order: seq<string>)
    requires WellFormed(cfg) && multiset(order) == multiset(cfg.permissions) && CityAnswer(s.locations, e.city)
    ensures Ends(s, Play(s, Script(s, cfg, e, order)), cfg, e)
  {
    CityChoiceIsAnswer(s, e.city);
    KeysMeet(s, cfg);
    PricesMeet(s, cfg);
    PasswordMeets(cfg);
    RunOutcome(s, cfg, e, order);
    TargetLeaves(s, cfg, e);
  }

  /** So does every run after any history of interrupted ones, described from the first store. */
  lemma HistoryEnds(s: Store, cfg: Config, history: seq<Attempt>, last: Env, order: seq<string>)
      returns (e: Env)
    requires WellFormed(cfg) && Possible(s, cfg, history) && multiset(order) == multiset(cfg.permissions)
    requires CityAnswer(After(s, cfg, history).locations, last.city)
    ensures e.passwordHash == last.passwordHash
    ensures var made := PropertyCreator(s, cfg, history, last);
            e.city == made.city && e.propertyStamp == made.propertyStamp
    ensures forall c :: e.unitStamp(c) == UnitCreator(s, cfg, history, last, c).unitStamp(c)
    ensures var t := After(s, cfg, history);
            Ends(s, Play(t, Script(t, cfg, last, order)), cfg, e)
  {
    CityChoiceIsAnswer(After(s, cfg, history), last.city);
    e := CrashRestart(s, cfg, history, last, order);
    CityChoiceIsAnswer(s, e.city);
    RunEnds(s, cfg, e, order);
  }
}
