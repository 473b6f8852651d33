/** What holds of every store that any history of interrupted and complete runs can leave. */
module Histories {
  import opened Basics
  import opened Entities
  import opened SeedConfig
  import opened Columns
  import opened Tables
  import opened Blocks
  import opened Steps
  import opened Plan
  import opened Run
  import opened Recovery
  import opened Restart
  import opened Guarantees

  // ----- Frame: what no run touches -----

  /** Stored rows stay as they are; new ones only under the given keys. */
  ghost predicate OnlyAdds<K, V>(t: map<K, V>, u: map<K, V>, keys: set<K>) {
    && (forall k :: k in t ==> k in u && u[k] == t[k])
    && u.Keys <= t.Keys + keys
  }

  /** Only the seeded property changes, and of a stored one only name, descriptions and status. */
  ghost predicate PropertiesFrame(t: map<string, Property>, u: map<string, Property>) {
    && t.Keys <= u.Keys <= t.Keys + {PROPERTY_SLUG}
    && (forall p :: p in t && p != PROPERTY_SLUG ==> u[p] == t[p])
    && (PROPERTY_SLUG in t ==>
          var a, b := t[PROPERTY_SLUG], u[PROPERTY_SLUG];
          b == a.(name := b.name, descriptionVi := b.descriptionVi, descriptionEn := b.descriptionEn,
                  status := b.status))
  }

  /** Units with other codes stay as they are. A stored seeded unit keeps its property, keys,
      currency and publishedAt; a demo unit also its fees, the flagship its names and rooms. */
  ghost predicate UnitFrame(a: Unit, b: Unit, c: string, cfg: Config) {
    if !cfg.Seeds(c) then b == a
    else if c == cfg.flagship.code then
      b == a.(status := b.status, basePrice := b.basePrice, cleaningFee := b.cleaningFee,
              serviceFeeRate := b.serviceFeeRate, depositRate := b.depositRate)
    else
      b == a.(nameVi := b.nameVi, nameEn := b.nameEn, rooms := b.rooms, basePrice := b.basePrice, status := b.status)
  }

  ghost predicate UnitsFrame(t: map<string, Unit>, u: map<string, Unit>, cfg: Config) {
    && (forall c :: c in t ==> c in u && UnitFrame(t[c], u[c], c, cfg))
    && (forall c :: c in u && !cfg.Seeds(c) ==> c in t)
  }

  /** Media under other keys stay; a stored seeded one keeps its file size and captions. */
  ghost predicate MediaFrame(t: map<string, Media>, u: map<string, Media>, cfg: Config) {
    && (forall k :: k in t ==> k in u)
    && (forall k :: k in u && k !in MediaKeys(cfg) ==> k in t && u[k] == t[k])
    && (forall k :: k in t && k in u ==>
          u[k].fileSize == t[k].fileSize && u[k].captionVi == t[k].captionVi && u[k].captionEn == t[k].captionEn)
  }

  /** Stored units of other properties. */
  ghost predicate Foreign(units: map<string, Unit>, c: string) {
    c in units && units[c].property != PROPERTY_SLUG
  }

  ghost predicate GalleryFrame(s: Store, t: Store) {
    forall r: UnitMedia :: Foreign(s.units, r.unit) ==> (r in s.unitMedia <==> r in t.unitMedia)
  }

  /** Blocks without the seed's prefix: none is lost, added or moved. */
  ghost predicate BlocksFrame(t: seq<Block>, u: seq<Block>) {
    && Kept(u) == Kept(t)
    && (forall b :: !Prefixed(b) ==> multiset(u)[b] == multiset(t)[b])
  }

  ghost predicate RatesFrame(s: Store, t: Store, cfg: Config) {
    forall k: (string, int) :: Foreign(s.units, k.0) || (forall d :: d in cfg.days ==> d.date != k.1) ==>
      Get(t.rates, k) == Get(s.rates, k)
  }

  /** No grant is revoked; a new one is the owner's, or staff's for a listed code. */
  ghost predicate GrantsFrame(t: set<(string, string)>, u: set<(string, string)>, cfg: Config) {
    && t <= u
    && (forall g :: g in u && g !in t ==> g.0 == OWNER || (g.0 == STAFF && g.1 in cfg.staffCodes))
  }

  /** No role is taken from a user; the administrator alone may gain one, the owner's. */
  ghost predicate UserRolesFrame(t: set<(string, string)>, u: set<(string, string)>, cfg: Config) {
    && t <= u
    && (forall g :: g in u && g !in t ==> Admin(cfg).Some? && g == (Admin(cfg).value.email, OWNER))
  }

  /** Only the administrator's row changes, and of a stored one only the hash. */
  ghost predicate UsersFrame(t: map<string, User>, u: map<string, User>, cfg: Config) {
    && (forall m :: m in t ==> m in u && u[m] == t[m].(passwordHash := u[m].passwordHash))
    && (forall m :: m in u && (m !in t || u[m] != t[m]) ==> Admin(cfg).Some? && m == Admin(cfg).value.email)
  }

  ghost predicate LocationsFrame(t: map<int, Location>, u: map<int, Location>) {
    && (forall l :: l in t ==> l in u && u[l] == t[l])
    && (forall l :: l in u && l !in t ==> u[l] == CITY_ROW)
  }

  ghost predicate Frame(s: Store, t: Store, cfg: Config) {
    && OnlyAdds(s.permissions, t.permissions, set c | c in cfg.permissions)
    && OnlyAdds(s.roles, t.roles, {OWNER, STAFF})
    && GrantsFrame(s.grants, t.grants, cfg)
    && LocationsFrame(s.locations, t.locations)
    && PropertiesFrame(s.properties, t.properties)
    && UnitsFrame(s.units, t.units, cfg)
    && MediaFrame(s.media, t.media, cfg)
    && GalleryFrame(s, t)
    && BlocksFrame(s.blocks, t.blocks)
    && RatesFrame(s, t, cfg)
    && UsersFrame(s.users, t.users, cfg)
    && UserRolesFrame(s.userRoles, t.userRoles, cfg)
  }

  lemma AccessFrame(s: Store, t: Store, cfg: Config)
    requires AccessBetween(s, t.permissions, t.roles, t.grants, cfg)
    ensures OnlyAdds(s.permissions, t.permissions, set c | c in cfg.permissions)
    ensures OnlyAdds(s.roles, t.roles, {OWNER, STAFF})
    ensures GrantsFrame(s.grants, t.grants, cfg)
  {
    IndexKeys(cfg.permissions, PermissionKey);
    RoleIndex();
  }

  lemma UnitsFramed(s: Store, t: Store, cfg: Config, e: Env)
    requires WellFormed(cfg) && UnitsBetween(s, t.units, cfg, e)
    ensures UnitsFrame(s.units, t.units, cfg)
  {
    forall c | c in t.units
      ensures c in s.units ==> UnitFrame(s.units[c], t.units[c], c, cfg)
      ensures !cfg.Seeds(c) ==> c in s.units
    {
      if c in Index(UnitEntries(cfg, e), UnitKey) {
        var i := UnitIndexOf(cfg, e, c);
        assert i == 0 <==> c == cfg.flagship.code by {
          assert cfg.Units()[0] == cfg.flagship;
        }
        assert i > 0 ==> cfg.Units()[i] in cfg.demoUnits;
      }
    }
  }

  lemma MediaFramed(s: Store, t: Store, cfg: Config)
    requires Partial(s.media, t.media, Index(cfg.images, MediaKey), MediaRow)
    ensures MediaFrame(s.media, t.media, cfg)
  {
    IndexKeys(cfg.images, MediaKey);
    forall k | k in Index(cfg.images, MediaKey)
      ensures k in MediaKeys(cfg)
    {
      var i :| 0 <= i < |cfg.images| && cfg.images[i] == Index(cfg.images, MediaKey)[k];
      assert MediaKeys(cfg)[i] == k;
    }
  }

  /** A stored unit of another property is never listed. */
  lemma ForeignNotListed(s: Store, cfg: Config, e: Env, c: string)
    requires WellFormed(cfg) && Foreign(s.units, c)
    ensures c !in Members(TargetUnits(s, cfg, e)) && c !in Listing(TargetUnits(s, cfg, e), cfg)
  {
    ListingFacts(TargetUnits(s, cfg, e), cfg);
  }

  lemma GalleryFramed(s: Store, t: Store, cfg: Config, e: Env)
    requires WellFormed(cfg)
    requires var listing := Listing(TargetUnits(s, cfg, e), cfg);
             Elsewhere(t.unitMedia, listing) == Elsewhere(s.unitMedia, listing)
    ensures GalleryFrame(s, t)
  {
    var listing := Listing(TargetUnits(s, cfg, e), cfg);
    forall r: UnitMedia | Foreign(s.units, r.unit)
      ensures r in s.unitMedia <==> r in t.unitMedia
    {
      ForeignNotListed(s, cfg, e, r.unit);
      assert r in s.unitMedia <==> r in Elsewhere(s.unitMedia, listing);
      assert r in t.unitMedia <==> r in Elsewhere(t.unitMedia, listing);
    }
  }

  lemma RatesFramed(s: Store, t: Store, cfg: Config, e: Env)
    requires WellFormed(cfg)
    requires var units := TargetUnits(s, cfg, e);
             Partial(s.rates, t.rates, Index(RateEntries(Listing(units, cfg), units, cfg.days), RateKey), RateRow)
    ensures RatesFrame(s, t, cfg)
  {
    var units := TargetUnits(s, cfg, e);
    forall k: (string, int) | Foreign(s.units, k.0) || (forall d :: d in cfg.days ==> d.date != k.1)
      ensures Get(t.rates, k) == Get(s.rates, k)
    {
      if Foreign(s.units, k.0) {
        ForeignNotListed(s, cfg, e, k.0);
      }
      if k in Index(RateEntries(Listing(units, cfg), units, cfg.days), RateKey) {
        RateKeysOf(s, cfg, e, k);
      }
    }
  }

  lemma PropertiesFramed(s: Store, t: Store, cfg: Config, e: Env)
    requires PlaceBetween(s, t.locations, t.properties, cfg, e)
    ensures PropertiesFrame(s.properties, t.properties)
    ensures LocationsFrame(s.locations, t.locations)
  {
  }

  lemma UsersFramed(s: Store, t: Store, cfg: Config, e: Env)
    requires AdminBetween(s, t.users, t.userRoles, cfg, e)
    ensures UsersFrame(s.users, t.users, cfg) && UserRolesFrame(s.userRoles, t.userRoles, cfg)
  {
  }

  lemma BlocksFramed(t: seq<Block>, u: seq<Block>)
    requires Kept(u) == Kept(t)
    ensures BlocksFrame(t, u)
  {
    forall b | !Prefixed(b)
      ensures multiset(u)[b] == multiset(t)[b]
    {
      KeptCount(t, b);
      KeptCount(u, b);
    }
  }

  lemma BetweenFrame(s: Store, t: Store, cfg: Config, e: Env)
    requires WellFormed(cfg) && Between(s, t, cfg, e)
    ensures Frame(s, t, cfg)
  {
    AccessFrame(s, t, cfg);
    UnitsFramed(s, t, cfg, e);
    MediaFramed(s, t, cfg);
    GalleryFramed(s, t, cfg, e);
    BlocksFramed(s.blocks, t.blocks);
    RatesFramed(s, t, cfg, e);
    UsersFramed(s, t, cfg, e);
    PropertiesFramed(s, t, cfg, e);
  }

  lemma UnitsFrameTrans(a: map<string, Unit>, b: map<string, Unit>, c: map<string, Unit>, cfg: Config)
    requires UnitsFrame(a, b, cfg) && UnitsFrame(b, c, cfg)
    ensures UnitsFrame(a, c, cfg)
  {
  }

  lemma DerivedFrameTrans(s: Store, t: Store, u: Store, cfg: Config)
    requires UnitsFrame(s.units, t.units, cfg)
    requires GalleryFrame(s, t) && GalleryFrame(t, u) && RatesFrame(s, t, cfg) && RatesFrame(t, u, cfg)
    ensures GalleryFrame(s, u) && RatesFrame(s, u, cfg)
  {
  }

  lemma UsersFrameTrans(a: map<string, User>, b: map<string, User>, c: map<string, User>, cfg: Config)
    requires UsersFrame(a, b, cfg) && UsersFrame(b, c, cfg)
    ensures UsersFrame(a, c, cfg)
  {
  }

  lemma FrameTrans(s: Store, t: Store, u: Store, cfg: Config)
    requires Frame(s, t, cfg) && Frame(t, u, cfg)
    ensures Frame(s, u, cfg)
  {
    UnitsFrameTrans(s.units, t.units, u.units, cfg);
    DerivedFrameTrans(s, t, u, cfg);
    UsersFrameTrans(s.users, t.users, u.users, cfg);
  }

  /** Over any history of runs, whatever lies outside the seed's reach is as it was. */
  lemma {:induction false} FrameOverHistory(s: Store, cfg: Config, history: seq<Attempt>)
    requires WellFormed(cfg) && Possible(s, cfg, history)
    ensures Frame(s, After(s, cfg, history), cfg)
    decreases |history|
  {
    if history != [] {
      var a := history[0];
      var t := Left(s, cfg, a);
      StoppedRun(s, cfg, a.env, a.order, a.calls);
      BetweenFrame(s, t, cfg, a.env);
      FrameOverHistory(t, cfg, history[1..]);
      FrameTrans(s, t, After(t, cfg, history[1..]), cfg);
    }
  }

  // ----- Integrity -----

  /** Over any history of runs, references resolve and keys are unique. */
  lemma {:induction false} IntegrityOverHistory(s: Store, cfg: Config, history: seq<Attempt>)
    requires Integrity(s) && Possible(s, cfg, history)
    ensures Integrity(After(s, cfg, history))
    decreases |history|
  {
    if history != [] {
      var a := history[0];
      PlayKeepsIntegrity(s, Script(s, cfg, a.env, a.order)[..a.calls]);
      IntegrityOverHistory(Left(s, cfg, a), cfg, history[1..]);
    }
  }

  // ----- One city -----

  /** A root city, if there is one, is left alone; at most one is made; and a property the seed makes
      stands in one. */
  ghost predicate OneCity(s: Store, t: Store) {
    && (HasRootCity(s.locations) ==> t.locations == s.locations)
    && (!HasRootCity(s.locations) ==>
          forall l, m :: RootCity(t.locations, l) && RootCity(t.locations, m) ==> l == m)
    && ("panoma" in t.properties && "panoma" !in s.properties ==>
          RootCity(t.locations, t.properties["panoma"].location))
  }

  lemma BetweenOneCity(s: Store, t: Store, cfg: Config, e: Env)
    requires PlaceBetween(s, t.locations, t.properties, cfg, e)
    ensures OneCity(s, t)
  {
    RootsAreRootCities(s.locations);
    RootsAreRootCities(t.locations);
    if !HasRootCity(s.locations) {
      forall l | RootCity(t.locations, l)
        ensures l == e.city
      {
        assert !RootCity(s.locations, l);
      }
    }
  }

  lemma OneCityTrans(s: Store, t: Store, u: Store)
    requires OneCity(s, t) && OneCity(t, u)
    requires PROPERTY_SLUG in t.properties ==>
               && PROPERTY_SLUG in u.properties
               && u.properties[PROPERTY_SLUG].location == t.properties[PROPERTY_SLUG].location
    ensures OneCity(s, u)
  {
    if HasRootCity(t.locations) {
      assert u.locations == t.locations;
    }
  }

  lemma {:induction false} OneCityOverHistory(s: Store, cfg: Config, history: seq<Attempt>)
    requires WellFormed(cfg) && Possible(s, cfg, history)
    ensures OneCity(s, After(s, cfg, history))
    decreases |history|
  {
    if history != [] {
      var a := history[0];
      var t := Left(s, cfg, a);
      StoppedRun(s, cfg, a.env, a.order, a.calls);
      BetweenOneCity(s, t, cfg, a.env);
      OneCityOverHistory(t, cfg, history[1..]);
      FrameOverHistory(t, cfg, history[1..]);
      OneCityTrans(s, t, After(t, cfg, history[1..]));
    }
  }

  // ----- Convergence, said without the environment -----

  /** After any history, a complete run leaves what an undisturbed run from the first store leaves,
      up to the creation stamps of new rows, the id of a new city and the salted hash. */
  lemma ConvergesUpToStamps(s: Store, cfg: Config, history: seq<Attempt>, last: Env, order: seq<string>, direct: Env)
      returns (e: Env)
    requires WellFormed(cfg) && Possible(s, cfg, history) && Completable(s, cfg)
    requires CityChoice(After(s, cfg, history), last.city) && CityChoice(s, direct.city) && Schedule(order, cfg)
    ensures Play(After(s, cfg, history), Script(After(s, cfg, history), cfg, last, order)) == Ok(Target(s, cfg, e))
    ensures Play(s, Script(s, cfg, direct, order)) == Ok(Target(s, cfg, direct))
    ensures var t, u := Target(s, cfg, e), Target(s, cfg, direct);
      && UnitsUpToStamps(s, t.units, u.units)
      && PropertiesUpToStamps(s, t.properties, u.properties)
      && CitiesUpToId(s, t.locations, e.city, u.locations, direct.city)
      && UsersUpToHash(t.users, u.users)
      && t.(locations := u.locations, properties := u.properties, units := u.units, users := u.users) == u
  {
    e := CrashRestart(s, cfg, history, last, order);
    RunOutcome(s, cfg, direct, order);
    RunsDifferOnlyInStamps(s, cfg, e, direct);
  }
}
