/** Convergence: any number of interrupted runs followed by a complete one is one
    undisturbed run, on the clocks of the runs that made the rows. */
module Restart {
  import opened Basics
  import opened Entities
  import opened SeedConfig
  import opened Tables
  import opened Blocks
  import opened Steps
  import opened Plan
  import opened Run
  import opened Recovery

  /** The environment of the undisturbed run: rows that the first run (s to t) created keep
      its stamps and its city, everything else comes from the second run. */
  function Mix(s: Store, t: Store, first: Env, second: Env): Env {
    var made := PROPERTY_SLUG in t.properties && PROPERTY_SLUG !in s.properties;
    Env(if made then first.city else second.city,
        if made then first.propertyStamp else second.propertyStamp,
        c => if c in t.units && c !in s.units then first.unitStamp(c) else second.unitStamp(c),
        second.passwordHash)
  }

  // ----- Table by table -----

  lemma BlendSame<K, E, V>(t: map<K, V>, u: map<K, V>, a: map<K, E>)
    ensures Blend(t, u, a, a) == a
  {
  }

  lemma ResumeAccess(s: Store, t: Store, cfg: Config)
    requires AccessBetween(s, t.permissions, t.roles, t.grants, cfg)
    ensures TargetPermissions(t, cfg) == TargetPermissions(s, cfg)
    ensures Bulk(t.roles, Index(ROLE_ENTRIES, RoleKey), RoleRow) == Bulk(s.roles, Index(ROLE_ENTRIES, RoleKey), RoleRow)
    ensures TargetGrants(t, cfg) == TargetGrants(s, cfg)
  {
    var p, r := Index(cfg.permissions, PermissionKey), Index(ROLE_ENTRIES, RoleKey);
    SelfAgreements(cfg, map[]);
    Resume(s.permissions, t.permissions, p, p, PermissionRow);
    Resume(s.roles, t.roles, r, r, RoleRow);
    BlendSame(s.permissions, t.permissions, p);
    BlendSame(s.roles, t.roles, r);
  }

  lemma ResumeLocations(s: Store, t: Store, cfg: Config, first: Env, second: Env)
    requires PlaceBetween(s, t.locations, t.properties, cfg, first) && CityChoice(t, second.city)
    ensures var m := Mix(s, t, first, second);
            CityChoice(s, m.city) && TargetLocations(t, second) == TargetLocations(s, m)
  {
    if Roots(s.locations) == {} && t.locations != s.locations {
      assert Roots(t.locations) == {first.city};
    }
  }

  lemma PropertyBlend(s: Store, t: Store, cfg: Config, first: Env, second: Env)
    ensures Blend(s.properties, t.properties, PropertyEntries(cfg, first), PropertyEntries(cfg, second))
         == PropertyEntries(cfg, Mix(s, t, first, second))
  {
  }

  lemma ResumeProperties(s: Store, t: Store, cfg: Config, first: Env, second: Env)
    requires Partial(s.properties, t.properties, PropertyEntries(cfg, first), PropertyRow)
    ensures Bulk(t.properties, PropertyEntries(cfg, second), PropertyRow)
         == Bulk(s.properties, PropertyEntries(cfg, Mix(s, t, first, second)), PropertyRow)
  {
    PropertiesAgree(cfg, first, second);
    PropertyBlend(s, t, cfg, first, second);
    Resume(s.properties, t.properties, PropertyEntries(cfg, first), PropertyEntries(cfg, second), PropertyRow);
  }

  lemma ResumePropertyFree(s: Store, t: Store, cfg: Config, e: Env)
    requires PlaceBetween(s, t.locations, t.properties, cfg, e)
    ensures PropertyFree(t, cfg) <==> PropertyFree(s, cfg)
  {
    if PROPERTY_SLUG !in t.properties {
      assert t.properties == s.properties;
    }
  }

  lemma UnitBlend(s: Store, t: Store, cfg: Config, first: Env, second: Env, c: string)
    requires WellFormed(cfg)
    ensures var a, b := Index(UnitEntries(cfg, first), UnitKey), Index(UnitEntries(cfg, second), UnitKey);
            var m := Index(UnitEntries(cfg, Mix(s, t, first, second)), UnitKey);
      && (c in a <==> c in m) && (c in b <==> c in m)
      && (c in m ==> m[c] == if c in t.units && c !in s.units then a[c] else b[c])
  {
    UnitIndexShift(cfg, Mix(s, t, first, second), first, c);
    UnitIndexShift(cfg, Mix(s, t, first, second), second, c);
  }

  lemma BlendIs<K, E, V>(t: map<K, V>, u: map<K, V>, a: map<K, E>, b: map<K, E>, c: map<K, E>)
    requires forall k :: (k in a <==> k in c) && (k in b <==> k in c)
    requires forall k :: k in c ==> c[k] == if k in u && k !in t then a[k] else b[k]
    ensures a.Keys == b.Keys && Blend(t, u, a, b) == c
  {
  }

  lemma UnitsBlend(s: Store, t: Store, cfg: Config, first: Env, second: Env)
    requires WellFormed(cfg)
    ensures var a, b := Index(UnitEntries(cfg, first), UnitKey), Index(UnitEntries(cfg, second), UnitKey);
            && a.Keys == b.Keys
            && Blend(s.units, t.units, a, b) == Index(UnitEntries(cfg, Mix(s, t, first, second)), UnitKey)
  {
    var a, b := Index(UnitEntries(cfg, first), UnitKey), Index(UnitEntries(cfg, second), UnitKey);
    var m := Index(UnitEntries(cfg, Mix(s, t, first, second)), UnitKey);
    forall c
      ensures (c in a <==> c in m) && (c in b <==> c in m)
      ensures c in m ==> m[c] == if c in t.units && c !in s.units then a[c] else b[c]
    {
      UnitBlend(s, t, cfg, first, second, c);
    }
    BlendIs(s.units, t.units, a, b, m);
  }

  lemma ResumeUnits(s: Store, t: Store, cfg: Config, first: Env, second: Env)
    requires WellFormed(cfg) && UnitsBetween(s, t.units, cfg, first)
    ensures TargetUnits(t, cfg, second) == TargetUnits(s, cfg, Mix(s, t, first, second))
  {
    UnitsAgree(cfg, first, second);
    UnitsBlend(s, t, cfg, first, second);
    var a, b := Index(UnitEntries(cfg, first), UnitKey), Index(UnitEntries(cfg, second), UnitKey);
    Resume(s.units, t.units, a, b, UnitRow);
  }

  /** The listing depends on the environment in no way. */
  lemma ListingStable(s: Store, cfg: Config, first: Env, second: Env)
    requires WellFormed(cfg)
    ensures var a, b := TargetUnits(s, cfg, first), TargetUnits(s, cfg, second);
            && Listing(a, cfg) == Listing(b, cfg)
            && forall c :: BasePrice(a, c) == BasePrice(b, c)
  {
    UnitsAgree(cfg, first, second);
    var a, b := TargetUnits(s, cfg, first), TargetUnits(s, cfg, second);
    forall c | c in a
      ensures c in b && a[c].basePrice == b[c].basePrice && a[c].property == b[c].property
    {
      UnitIndexShift(cfg, first, second, c);
    }
    assert Members(a) == Members(b);
  }

  lemma {:induction false} RatesStable(listing: seq<string>, a: map<string, Unit>, b: map<string, Unit>, days: seq<Day>)
    requires forall c :: BasePrice(a, c) == BasePrice(b, c)
    ensures RateEntries(listing, a, days) == RateEntries(listing, b, days)
  {
    if listing != [] {
      RatesStable(listing[..|listing| - 1], a, b, days);
    }
  }

  lemma ResumeDerived(s: Store, t: Store, cfg: Config, first: Env, second: Env)
    requires WellFormed(cfg) && UnitsBetween(s, t.units, cfg, first)
    requires DerivedBetween(s, t.media, t.unitMedia, t.blocks, t.rates, cfg, first)
    ensures var listing := Listing(TargetUnits(t, cfg, second), cfg); var m := Mix(s, t, first, second);
            && Bulk(t.media, Index(cfg.images, MediaKey), MediaRow)
            == Bulk(s.media, Index(cfg.images, MediaKey), MediaRow)
            && Elsewhere(t.unitMedia, listing) == Elsewhere(s.unitMedia, listing)
            && Kept(t.blocks) == Kept(s.blocks)
            && TargetRates(t, cfg, second) == TargetRates(s, cfg, m)
  {
    var m := Mix(s, t, first, second);
    var images := Index(cfg.images, MediaKey);
    ResumeUnits(s, t, cfg, first, second);
    ListingStable(s, cfg, first, m);
    var units := TargetUnits(s, cfg, first);
    var listing := Listing(units, cfg);
    RatesStable(listing, units, TargetUnits(s, cfg, m), cfg.days);
    var rates := Index(RateEntries(listing, units, cfg.days), RateKey);
    SelfAgreements(cfg, rates);
    Resume(s.media, t.media, images, images, MediaRow);
    BlendSame(s.media, t.media, images);
    Resume(s.rates, t.rates, rates, rates, RateRow);
    BlendSame(s.rates, t.rates, rates);
  }

  lemma ResumeAdmin(s: Store, t: Store, cfg: Config, first: Env, second: Env)
    requires AdminBetween(s, t.users, t.userRoles, cfg, first)
    ensures TargetUsers(t, cfg, second) == TargetUsers(s, cfg, Mix(s, t, first, second))
    ensures TargetUserRoles(t, cfg) == TargetUserRoles(s, cfg)
  {
  }

  // ----- Conditions -----

  /** Units that the first run made take no key of another seeded unit. */
  lemma MadeUnitsApart(s: Store, t: Store, cfg: Config, e: Env, u: UnitSpec, c: string)
    requires WellFormed(cfg) && UnitsBetween(s, t.units, cfg, e) && u in cfg.Units()
    requires c in t.units && c !in s.units && c != u.code
    ensures t.units[c].internalCode != u.InternalCode() && t.units[c].slugVi != u.SlugVi()
            && t.units[c].slugEn != u.SlugEn()
  {
    var i := UnitIndexOf(cfg, e, c);
    var k :| 0 <= k < |cfg.Units()| && cfg.Units()[k] == u;
    assert !SpecsClash(cfg.Units()[if i < k then i else k], cfg.Units()[if i < k then k else i]);
  }

  lemma ResumeUnitFree(s: Store, t: Store, cfg: Config, e: Env, u: UnitSpec)
    requires WellFormed(cfg) && UnitsBetween(s, t.units, cfg, e) && u in cfg.Units()
    ensures (u.code in t.units || !Taken(t.units, u)) <==> (u.code in s.units || !Taken(s.units, u))
  {
    TakenPersists(s.units, t.units, Index(UnitEntries(cfg, e), UnitKey), u);
    if u.code !in t.units && Taken(t.units, u) {
      var c :| c in t.units && (t.units[c].internalCode == u.InternalCode()
                                || t.units[c].slugVi == u.SlugVi() || t.units[c].slugEn == u.SlugEn());
      if c !in s.units {
        MadeUnitsApart(s, t, cfg, e, u, c);
      }
      assert c in s.units;
    }
  }

  lemma ResumeUnitsFree(s: Store, t: Store, cfg: Config, e: Env)
    requires WellFormed(cfg) && UnitsBetween(s, t.units, cfg, e)
    ensures UnitsFree(t, cfg) <==> UnitsFree(s, cfg)
  {
    forall u | u in cfg.Units()
      ensures (u.code in t.units || !Taken(t.units, u)) <==> (u.code in s.units || !Taken(s.units, u))
    {
      ResumeUnitFree(s, t, cfg, e, u);
    }
  }

  lemma ResumePriced(s: Store, t: Store, cfg: Config, e: Env)
    requires WellFormed(cfg) && UnitsBetween(s, t.units, cfg, e)
    ensures MembersPriced(t, cfg) <==> MembersPriced(s, cfg)
  {
    forall c | !cfg.Seeds(c)
      ensures Get(t.units, c) == Get(s.units, c)
    {
      if c in Index(UnitEntries(cfg, e), UnitKey) {
        var i := UnitIndexOf(cfg, e, c);
      }
    }
    forall c | !cfg.Seeds(c)
      ensures c in Members(t.units) <==> c in Members(s.units)
      ensures c in Members(s.units) ==> t.units[c] == s.units[c]
    {
      assert Get(t.units, c) == Get(s.units, c);
    }
  }

  // ----- Finishing -----

  /** A run started on a store between s and its target reaches what a run from s reaches. */
  lemma ResumeTarget(s: Store, t: Store, cfg: Config, first: Env, second: Env)
    requires WellFormed(cfg) && Between(s, t, cfg, first) && CityChoice(t, second.city)
    ensures CityChoice(s, Mix(s, t, first, second).city)
    ensures Target(t, cfg, second) == Target(s, cfg, Mix(s, t, first, second))
  {
    ResumeAccess(s, t, cfg);
    ResumeLocations(s, t, cfg, first, second);
    ResumeProperties(s, t, cfg, first, second);
    ResumeUnits(s, t, cfg, first, second);
    ResumeDerived(s, t, cfg, first, second);
    ResumeAdmin(s, t, cfg, first, second);
  }

  lemma ResumeVerdict(s: Store, t: Store, cfg: Config, first: Env, second: Env)
    requires WellFormed(cfg) && Between(s, t, cfg, first) && CityChoice(t, second.city)
    ensures CityChoice(s, Mix(s, t, first, second).city)
    ensures Verdict(t, cfg, second) == Verdict(s, cfg, Mix(s, t, first, second))
    ensures Completable(t, cfg) <==> Completable(s, cfg)
  {
    ResumeTarget(s, t, cfg, first, second);
    ResumePropertyFree(s, t, cfg, first);
    ResumeUnitsFree(s, t, cfg, first);
    ResumePriced(s, t, cfg, first);
  }

  // ----- Histories -----

  /** A run that committed its first calls and then stopped, for whatever reason. */
  datatype Attempt = Attempt(env: Env, order: seq<string>, calls: nat)

  ghost predicate Stops(s: Store, cfg: Config, a: Attempt) {
    && CityChoice(s, a.env.city)
    && Schedule(a.order, cfg)
    && a.calls <= |Script(s, cfg, a.env, a.order)|
    && Play(s, Script(s, cfg, a.env, a.order)[..a.calls]).Ok?
  }

  ghost function Left(s: Store, cfg: Config, a: Attempt): Store
    requires Stops(s, cfg, a)
  {
    Play(s, Script(s, cfg, a.env, a.order)[..a.calls]).value
  }

  ghost predicate Possible(s: Store, cfg: Config, history: seq<Attempt>)
    decreases |history|
  {
    history == [] || (Stops(s, cfg, history[0]) && Possible(Left(s, cfg, history[0]), cfg, history[1..]))
  }

  /** The store a history of interrupted runs leaves behind. */
  ghost function After(s: Store, cfg: Config, history: seq<Attempt>): Store
    requires Possible(s, cfg, history)
    decreases |history|
  {
    if history == [] then s else After(Left(s, cfg, history[0]), cfg, history[1..])
  }

  /** The environment of the attempt that created unit c, or else of the last run. */
  ghost function UnitCreator(s: Store, cfg: Config, history: seq<Attempt>, last: Env, c: string): Env
    requires Possible(s, cfg, history)
    decreases |history|
  {
    if history == [] then last
    else
      var t := Left(s, cfg, history[0]);
      if c in t.units && c !in s.units then history[0].env else UnitCreator(t, cfg, history[1..], last, c)
  }

  /** The environment of the attempt that created the property, or else of the last run. */
  ghost function PropertyCreator(s: Store, cfg: Config, history: seq<Attempt>, last: Env): Env
    requires Possible(s, cfg, history)
    decreases |history|
  {
    if history == [] then last
    else
      var t := Left(s, cfg, history[0]);
      if PROPERTY_SLUG in t.properties && PROPERTY_SLUG !in s.properties then history[0].env
      else PropertyCreator(t, cfg, history[1..], last)
  }

  /** The environment of the undisturbed run. */
  ghost function MixedEnv(s: Store, cfg: Config, history: seq<Attempt>, last: Env): Env
    requires Possible(s, cfg, history)
    decreases |history|
  {
    if history == [] then last
    else
      var t := Left(s, cfg, history[0]);
      Mix(s, t, history[0].env, MixedEnv(t, cfg, history[1..], last))
  }

  lemma {:induction false} UndisturbedClock(s: Store, cfg: Config, history: seq<Attempt>, last: Env)
    requires Possible(s, cfg, history)
    ensures var e, made := MixedEnv(s, cfg, history, last), PropertyCreator(s, cfg, history, last);
      && e.passwordHash == last.passwordHash && e.city == made.city && e.propertyStamp == made.propertyStamp
      && forall c :: e.unitStamp(c) == UnitCreator(s, cfg, history, last, c).unitStamp(c)
    decreases |history|
  {
    if history != [] {
      UndisturbedClock(Left(s, cfg, history[0]), cfg, history[1..], last);
    }
  }

  lemma {:induction false} Converges(s: Store, cfg: Config, history: seq<Attempt>, last: Env)
    requires WellFormed(cfg) && Possible(s, cfg, history) && CityChoice(After(s, cfg, history), last.city)
    ensures var e := MixedEnv(s, cfg, history, last);
            CityChoice(s, e.city) && Verdict(After(s, cfg, history), cfg, last) == Verdict(s, cfg, e)
    ensures Completable(After(s, cfg, history), cfg) <==> Completable(s, cfg)
    decreases |history|
  {
    if history != [] {
      var a := history[0];
      var t := Left(s, cfg, a);
      Converges(t, cfg, history[1..], last);
      StoppedRun(s, cfg, a.env, a.order, a.calls);
      ResumeVerdict(s, t, cfg, a.env, MixedEnv(t, cfg, history[1..], last));
    }
  }

  /** Crash-restart convergence. After any history of interrupted runs, a complete run ends, or
      throws, exactly as one undisturbed run from the first store would. That run is given, for
      each row it makes, the city and the stamp of the attempt that made the row. */
  lemma CrashRestart(s: Store, cfg: Config, history: seq<Attempt>, last: Env, order: seq<string>)
      returns (e: Env)
    requires WellFormed(cfg) && Possible(s, cfg, history)
    requires CityChoice(After(s, cfg, history), last.city) && Schedule(order, cfg)
    ensures CityChoice(s, e.city) && e.passwordHash == last.passwordHash
    ensures var made := PropertyCreator(s, cfg, history, last);
            e.city == made.city && e.propertyStamp == made.propertyStamp
    ensures forall c :: e.unitStamp(c) == UnitCreator(s, cfg, history, last, c).unitStamp(c)
    ensures Play(After(s, cfg, history), Script(After(s, cfg, history), cfg, last, order))
         == Play(s, Script(s, cfg, e, order))
    ensures Play(s, Script(s, cfg, e, order)) == Verdict(s, cfg, e)
    ensures Completable(After(s, cfg, history), cfg) <==> Completable(s, cfg)
  {
    e := MixedEnv(s, cfg, history, last);
    UndisturbedClock(s, cfg, history, last);
    Converges(s, cfg, history, last);
    RunOutcome(s, cfg, e, order);
    RunOutcome(After(s, cfg, history), cfg, last, order);
  }
}
