/** What operators can rely on: after a complete run, and at every point of every history
    of complete and interrupted runs. */
module Guarantees {
  import opened Basics
  import opened Entities
  import opened SeedConfig
  import opened Columns
  import opened Ordering
  import opened Tables
  import opened Rotation
  import opened Blocks
  import opened Steps
  import opened Plan
  import opened Run
  import opened Recovery
  import opened Restart

  // ----- After a complete run -----

  lemma PermissionKeys(s: Store, cfg: Config, p: string)
    ensures p in AllPermissions(s, cfg) <==> p in s.permissions || p in cfg.permissions
  {
    IndexKeys(cfg.permissions, PermissionKey);
  }

  lemma PermissionsExact(t: map<string, Permission>, codes: seq<string>)
    ensures PermissionsLeft(t, Bulk(t, Index(codes, PermissionKey), PermissionRow), codes)
  {
    IndexKeys(codes, PermissionKey);
  }

  lemma RolesExact(t: map<string, Role>)
    ensures RolesLeft(t, Bulk(t, Index(ROLE_ENTRIES, RoleKey), RoleRow))
  {
    RoleIndex();
  }

  lemma OwnerIsNotStaff()
    ensures OWNER != STAFF
  {
  }

  /** The owner holds every permission in the store; staff gain exactly the listed codes;
      nobody loses a grant, and no other role gains one. */
  lemma RoleGrants(s: Store, cfg: Config, e: Env)
    ensures var t := Target(s, cfg, e);
      && (forall p :: p in t.permissions <==> p in s.permissions || p in cfg.permissions)
      && (forall p :: p in t.permissions ==> (OWNER, p) in t.grants)
      && (forall p :: (STAFF, p) in t.grants <==>
            (STAFF, p) in s.grants || (p in cfg.staffCodes && p in t.permissions))
      && (forall r, p :: r != OWNER && r != STAFF ==> ((r, p) in t.grants <==> (r, p) in s.grants))
      && s.grants <= t.grants
      && GrantsLeft(s.grants, t.grants, t.permissions, cfg.staffCodes)
  {
    OwnerIsNotStaff();
    forall p
      ensures p in AllPermissions(s, cfg) <==> p in s.permissions || p in cfg.permissions
    {
      PermissionKeys(s, cfg, p);
    }
  }

  /** Over a sound store, staff end with no grant that the owner lacks. */
  lemma StaffBelowOwner(s: Store, cfg: Config, e: Env, p: string)
    requires Integrity(s) && (STAFF, p) in Target(s, cfg, e).grants
    ensures (OWNER, p) in Target(s, cfg, e).grants
  {
  }

  lemma RateSet(s: Store, cfg: Config, e: Env, c: string, d: Day)
    requires WellFormed(cfg) && c in Members(TargetUnits(s, cfg, e)) && d in cfg.days
    ensures Get(TargetRates(s, cfg, e), (c, d.date))
         == Some(Rate(Scaled(BasePrice(TargetUnits(s, cfg, e), c), d.percent), Some(MIN_STAY)))
  {
    var units := TargetUnits(s, cfg, e);
    var listing := Listing(units, cfg);
    ListingFacts(units, cfg);
    RateEntriesConsistent(listing, units, cfg.days);
    assert c in listing;
    var i :| 0 <= i < |listing| && listing[i] == c;
    var j :| 0 <= j < |cfg.days| && cfg.days[j] == d;
    RateEntryIn(listing, units, cfg.days, i, j);
    var entry := RateEntry(c, d.date, Scaled(BasePrice(units, c), d.percent));
    IndexAt(RateEntries(listing, units, cfg.days), RateKey, entry);
  }

  lemma RateKeysOf(s: Store, cfg: Config, e: Env, k: (string, int))
    requires WellFormed(cfg)
    requires var units := TargetUnits(s, cfg, e); k in Index(RateEntries(Listing(units, cfg), units, cfg.days), RateKey)
    ensures k.0 in Members(TargetUnits(s, cfg, e)) && exists d :: d in cfg.days && d.date == k.1
  {
    var units := TargetUnits(s, cfg, e);
    var listing := Listing(units, cfg);
    var entries := RateEntries(listing, units, cfg.days);
    ListingFacts(units, cfg);
    IndexKeys(entries, RateKey);
    var i, j := RateEntryOf(listing, units, cfg.days, Index(entries, RateKey)[k]);
    assert listing[i] in listing && cfg.days[j] in cfg.days;
  }

  lemma RateUntouched(s: Store, cfg: Config, e: Env, k: (string, int))
    requires WellFormed(cfg)
    requires k.0 !in Members(TargetUnits(s, cfg, e)) || forall d :: d in cfg.days ==> d.date != k.1
    ensures Get(TargetRates(s, cfg, e), k) == Get(s.rates, k)
  {
    var units := TargetUnits(s, cfg, e);
    if k in Index(RateEntries(Listing(units, cfg), units, cfg.days), RateKey) {
      RateKeysOf(s, cfg, e, k);
    }
  }

  lemma SeededPrice(s: Store, cfg: Config, e: Env, u: UnitSpec)
    requires WellFormed(cfg) && u in cfg.Units()
    ensures u.code in TargetUnits(s, cfg, e) && TargetUnits(s, cfg, e)[u.code].basePrice == u.basePrice
  {
    var i :| 0 <= i < |cfg.Units()| && cfg.Units()[i] == u;
    UnitIndexAt(cfg, e, i);
  }

  lemma RatesOfUnit(s: Store, cfg: Config, e: Env, c: string, d: Day, amount: int)
    requires WellFormed(cfg) && d in cfg.days
    requires var t := Target(s, cfg, e);
             c in t.units && t.units[c].property == "panoma" && Rounded(t.units[c].basePrice * d.percent, amount)
    ensures RowIs(Target(s, cfg, e).rates, (c, d.date), Rate(amount, Some(2)))
  {
    var units := TargetUnits(s, cfg, e);
    RateSet(s, cfg, e, c, d);
    RoundedOnce(units[c].basePrice * d.percent, amount, Scaled(units[c].basePrice, d.percent));
  }

  /** Every unit of the property has, for each listed date, its final base price times the
      date's multiplier, whatever was stored before; all other rates are as before. Base prices
      are the configured ones for the seeded units. */
  lemma NoStalePrices(s: Store, cfg: Config, e: Env)
    requires WellFormed(cfg)
    ensures var t := Target(s, cfg, e);
      && RatesLeft(s.rates, t.rates, t.units, cfg.days)
      && (forall u :: u in cfg.Units() ==> u.code in t.units && t.units[u.code].basePrice == u.basePrice)
  {
    var t := Target(s, cfg, e);
    forall c, d, amount | c in t.units && t.units[c].property == "panoma" && d in cfg.days
        && Rounded(t.units[c].basePrice * d.percent, amount)
      ensures RowIs(t.rates, (c, d.date), Rate(amount, Some(2)))
    {
      RatesOfUnit(s, cfg, e, c, d, amount);
    }
    forall k: (string, int) |
        k.0 !in t.units || t.units[k.0].property != "panoma" || (forall d :: d in cfg.days ==> d.date != k.1)
      ensures SameRow(s.rates, t.rates, k)
    {
      RateUntouched(s, cfg, e, k);
      assert Get(t.rates, k) == Get(s.rates, k);
    }
    forall u | u in cfg.Units()
      ensures u.code in t.units && t.units[u.code].basePrice == u.basePrice
    {
      SeededPrice(s, cfg, e, u);
    }
  }

  /** The listing is every unit of the property, in order. A unit the run creates is in it. */
  lemma ListingExact(s: Store, cfg: Config, e: Env)
    requires WellFormed(cfg)
    ensures var t := Target(s, cfg, e); var listing := Listing(t.units, cfg);
      && Listed(listing, t.units, cfg.less)
      && (forall u :: u in cfg.Units() && u.code !in s.units ==> u.code in listing)
  {
    var t := Target(s, cfg, e);
    ListingFacts(t.units, cfg);
    forall u | u in cfg.Units() && u.code !in s.units
      ensures u.code in Members(t.units)
    {
      UnitMade(s, cfg, e, u);
    }
  }

  lemma UnitMade(s: Store, cfg: Config, e: Env, u: UnitSpec)
    requires WellFormed(cfg) && u in cfg.Units()
    ensures RowIs(TargetUnits(s, cfg, e), u.code, UnitRow(UnitEntry(u, e.unitStamp(u.code)), Get(s.units, u.code)))
  {
    var i :| 0 <= i < |cfg.Units()| && cfg.Units()[i] == u;
    UnitIndexAt(cfg, e, i);
  }

  lemma SeedsOrNot(cfg: Config, c: string)
    ensures Unseeded(cfg, c) <==> !cfg.Seeds(c)
  {
    if !Unseeded(cfg, c) {
      if c == cfg.flagship.code {
        assert cfg.Units()[0].code == c;
      } else {
        var i :| 0 <= i < |cfg.demoUnits| && cfg.demoUnits[i].code == c;
        assert cfg.Units()[i + 1].code == c;
      }
    }
  }

  lemma UnitSpared(s: Store, cfg: Config, e: Env, c: string)
    requires WellFormed(cfg) && Unseeded(cfg, c)
    ensures SameRow(s.units, TargetUnits(s, cfg, e), c)
  {
    SeedsOrNot(cfg, c);
    if c in Index(UnitEntries(cfg, e), UnitKey) {
      var i := UnitIndexOf(cfg, e, c);
      assert false;
    }
  }

  lemma DemoMade(s: Store, cfg: Config, e: Env, u: UnitSpec, slug: string)
    requires WellFormed(cfg) && u in cfg.demoUnits && Lowered(u.code, slug)
    ensures DemoLeft(s.units, TargetUnits(s, cfg, e), u, slug, e.unitStamp(u.code))
  {
    assert u in cfg.Units();
    UnitMade(s, cfg, e, u);
    LowerExact(u.code);
  }

  /** The final row of each seeded unit, whole, and no other row changed. */
  lemma CatalogExact(s: Store, cfg: Config, e: Env)
    requires WellFormed(cfg)
    ensures UnitsLeft(s.units, Target(s, cfg, e).units, cfg, e.unitStamp)
  {
    forall c | Unseeded(cfg, c)
      ensures SameRow(s.units, TargetUnits(s, cfg, e), c)
    {
      UnitSpared(s, cfg, e, c);
    }
    assert cfg.Units()[0] == cfg.flagship;
    UnitMade(s, cfg, e, cfg.flagship);
    forall u, slug | u in cfg.demoUnits && Lowered(u.code, slug)
      ensures DemoLeft(s.units, TargetUnits(s, cfg, e), u, slug, e.unitStamp(u.code))
    {
      DemoMade(s, cfg, e, u, slug);
    }
  }

  /** A root city is adopted if there is one, and made with the whole row of the seed if not. */
  lemma CityExact(s: Store, cfg: Config, e: Env)
    requires CityAnswer(s.locations, e.city)
    ensures LocationsLeft(s.locations, Target(s, cfg, e).locations, e.city)
    ensures RootCity(Target(s, cfg, e).locations, e.city)
  {
    RootsAreRootCities(s.locations);
  }

  lemma PropertiesExact(t: map<string, Property>, cfg: Config, e: Env)
    ensures PropertiesLeft(t, Bulk(t, PropertyEntries(cfg, e), PropertyRow), cfg.property, e.city, e.propertyStamp)
  {
  }

  /** The final row of the property, whole; a new one stands in a root city. */
  lemma PropertyExact(s: Store, cfg: Config, e: Env)
    requires CityAnswer(s.locations, e.city)
    ensures var t := Target(s, cfg, e);
      && PropertiesLeft(s.properties, t.properties, cfg.property, e.city, e.propertyStamp)
      && "panoma" in t.properties
      && ("panoma" !in s.properties ==> RootCity(t.locations, t.properties["panoma"].location))
  {
    CityExact(s, cfg, e);
    PropertiesExact(s.properties, cfg, e);
  }

  lemma ImageKeys(cfg: Config, k: string)
    ensures k in Index(cfg.images, MediaKey) ==> exists x :: x in cfg.images && x.storageKey == k
  {
    IndexKeys(cfg.images, MediaKey);
  }

  /** The final row of each seeded medium, whole; a stored one keeps its file size and captions. */
  lemma MediaExact(s: Store, cfg: Config, e: Env)
    requires WellFormed(cfg)
    ensures MediaLeft(s.media, Target(s, cfg, e).media, cfg.images)
  {
    var u := Target(s, cfg, e).media;
    forall k | forall x :: x in cfg.images ==> x.storageKey != k
      ensures SameRow(s.media, u, k)
    {
      ImageKeys(cfg, k);
    }
    forall x | x in cfg.images
      ensures RowIs(u, x.storageKey, MediaRow(x, Get(s.media, x.storageKey)))
    {
      IndexAt(cfg.images, MediaKey, x);
    }
  }

  lemma AdminIffConfigured(cfg: Config)
    ensures Admin(cfg).Some? <==> Configured(cfg)
    ensures Configured(cfg) ==>
              && Admin(cfg).value.password == cfg.adminPassword.value
              && forall m :: Lowered(cfg.adminEmail.value, m) <==> m == Admin(cfg).value.email
  {
    if cfg.adminEmail.Some? {
      LowerExact(cfg.adminEmail.value);
    }
  }

  /** With both variables set and not empty, the user under the lower-cased address has this run's
      hash and the owner role; a new one is Admin Owner, active. Nobody else changes. */
  lemma AdminExact(s: Store, cfg: Config, e: Env)
    ensures var t := Target(s, cfg, e);
      && UsersLeft(s.users, t.users, cfg, e.passwordHash)
      && UserRolesLeft(s.userRoles, t.userRoles, cfg)
  {
    AdminIffConfigured(cfg);
  }

  /** After a complete run the administrator's role holds every permission, and the password is long. */
  lemma AdminHoldsAll(s: Store, cfg: Config, e: Env, m: string)
    requires WellFormed(cfg) && Completable(s, cfg)
    requires Configured(cfg) && Lowered(cfg.adminEmail.value, m)
    ensures |cfg.adminPassword.value| >= 8
    ensures var t := Target(s, cfg, e);
      && m in t.users && "ADMIN_OWNER" in t.roles && (m, "ADMIN_OWNER") in t.userRoles
      && (forall p :: p in t.permissions ==> ("ADMIN_OWNER", p) in t.grants)
  {
    AdminIffConfigured(cfg);
    RoleIndex();
    RoleGrants(s, cfg, e);
  }

  lemma CountOnce(rows: seq<Block>, b: Block)
    requires forall i, j :: 0 <= i < j < |rows| ==> rows[i] != rows[j]
    ensures multiset(rows)[b] == if b in rows then 1 else 0
  {
    if rows != [] {
      var n := |rows| - 1;
      CountOnce(rows[..n], b);
      assert rows == rows[..n] + [rows[n]];
    }
  }

  lemma PlannedRows(listing: seq<string>, cfg: Config, b: Block)
    requires WellFormed(cfg) && Distinct(listing)
    ensures var rows := BlockRows(listing, cfg.templates);
      && multiset(rows)[b] == (if Planned(b, listing, cfg.templates) then 1 else 0)
      && (Planned(b, listing, cfg.templates) ==> Prefixed(b))
  {
    var rows := BlockRows(listing, cfg.templates);
    BlockRowsExact(listing, cfg.templates);
    BlockRowsValid(listing, cfg);
    CountOnce(rows, b);
    if Planned(b, listing, cfg.templates) {
      var i :| 0 <= i < |listing| && i < |cfg.templates|
        && b == Block(listing[i], cfg.templates[i].startDate, cfg.templates[i].endDate,
                      if i % 2 == 0 then Blocked else Maintenance, Some(cfg.templates[i].reason), None);
      assert rows[i] == b;
    }
  }

  lemma BlocksCounted(s: Store, cfg: Config, e: Env)
    requires WellFormed(cfg)
    ensures var t := Target(s, cfg, e);
            BlocksLeft(s.blocks, t.blocks, Listing(t.units, cfg), cfg.templates)
  {
    var units := TargetUnits(s, cfg, e);
    var listing := Listing(units, cfg);
    var rows := BlockRows(listing, cfg.templates);
    ListingFacts(units, cfg);
    BlockRowsValid(listing, cfg);
    Rebuilt(s.blocks, rows);
    forall b
      ensures multiset(Kept(s.blocks) + rows)[b]
           == if !Prefixed(b) then multiset(s.blocks)[b] else if Planned(b, listing, cfg.templates) then 1 else 0
    {
      PlannedRows(listing, cfg, b);
    }
  }

  /** The seeded blocks are one per template that has a unit, at that unit of the listing,
      with no leftovers; the other blocks are untouched; no unit gets two. */
  lemma BlocksExact(s: Store, cfg: Config, e: Env)
    requires WellFormed(cfg)
    ensures var t := Target(s, cfg, e); var listing := Listing(t.units, cfg); var rows := Seeded(t.blocks);
      && Kept(t.blocks) == Kept(s.blocks)
      && |rows| == Min(|listing|, |cfg.templates|)
      && (forall i :: 0 <= i < |rows| ==>
            rows[i] == Block(listing[i], cfg.templates[i].startDate, cfg.templates[i].endDate,
                             if i % 2 == 0 then Blocked else Maintenance, Some(cfg.templates[i].reason), None))
      && (forall i, j :: 0 <= i < j < |rows| ==> rows[i].unit != rows[j].unit)
      && BlocksLeft(s.blocks, t.blocks, listing, cfg.templates)
  {
    BlocksCounted(s, cfg, e);
    var units := TargetUnits(s, cfg, e);
    ListingFacts(units, cfg);
    BlockRowsValid(Listing(units, cfg), cfg);
    BlockRowsExact(Listing(units, cfg), cfg.templates);
    Rebuilt(s.blocks, BlockRows(Listing(units, cfg), cfg.templates));
  }

  lemma GalleryBounds(s: Store, cfg: Config, e: Env)
    ensures var t := Target(s, cfg, e); var listing := Listing(t.units, cfg); var keys := MediaKeys(cfg);
      && (forall r :: r in t.unitMedia && r.unit in listing ==> r in MediaRows(listing, keys))
      && (forall r :: r in MediaRows(listing, keys) ==> r in t.unitMedia)
      && (forall r: UnitMedia :: r.unit !in listing ==> (r in t.unitMedia <==> r in s.unitMedia))
  {
    var listing, keys := Listing(Target(s, cfg, e).units, cfg), MediaKeys(cfg);
    forall r | r in MediaRows(listing, keys)
      ensures r.unit in listing
    {
      var u, i := RowsAreAssigned(listing, keys, r);
    }
  }

  lemma RowShown(listing: seq<string>, cfg: Config, r: UnitMedia)
    ensures r in MediaRows(listing, MediaKeys(cfg)) <==> Shown(r, listing, cfg.images)
  {
    var keys := MediaKeys(cfg);
    if r in MediaRows(listing, keys) {
      var u, i := RowsAreAssigned(listing, keys, r);
    }
    if Shown(r, listing, cfg.images) {
      var u :| 0 <= u < |listing| && listing[u] == r.unit
        && cfg.images[(u + r.sortOrder) % |cfg.images|].storageKey == r.media;
      RowsContain(listing, keys, u, r.sortOrder);
    }
  }

  lemma GalleryShown(s: Store, cfg: Config, e: Env)
    ensures var t := Target(s, cfg, e);
            GalleryLeft(s.unitMedia, t.unitMedia, Listing(t.units, cfg), cfg.images)
  {
    var t := Target(s, cfg, e);
    var listing := Listing(t.units, cfg);
    GalleryBounds(s, cfg, e);
    forall r: UnitMedia
      ensures r in t.unitMedia <==> if r.unit in listing then Shown(r, listing, cfg.images) else r in s.unitMedia
    {
      RowShown(listing, cfg, r);
    }
  }

  /** The gallery of a listed unit is exactly its row of the rotation. */
  lemma GalleryExact(s: Store, cfg: Config, e: Env)
    requires WellFormed(cfg)
    ensures var t := Target(s, cfg, e); var listing := Listing(t.units, cfg); var keys := MediaKeys(cfg);
      && (forall r :: r in t.unitMedia && r.unit in listing ==> r in MediaRows(listing, keys))
      && (forall r :: r in MediaRows(listing, keys) ==> r in t.unitMedia)
      && (forall r: UnitMedia :: r.unit !in listing ==> (r in t.unitMedia <==> r in s.unitMedia))
      && (forall u, i :: 0 <= u < |listing| && 0 <= i < |keys| ==>
            UnitMedia(listing[u], keys[Slot(u, i, |keys|)], i, Image) in t.unitMedia)
      && GalleryLeft(s.unitMedia, t.unitMedia, listing, cfg.images)
  {
    var t := Target(s, cfg, e);
    var listing, keys := Listing(t.units, cfg), MediaKeys(cfg);
    GalleryBounds(s, cfg, e);
    GalleryShown(s, cfg, e);
    forall u, i | 0 <= u < |listing| && 0 <= i < |keys|
      ensures UnitMedia(listing[u], keys[Slot(u, i, |keys|)], i, Image) in t.unitMedia
    {
      RowsContain(listing, keys, u, i);
    }
  }

  lemma LatinRow(s: Store, cfg: Config, e: Env, u: nat, m: nat)
    requires WellFormed(cfg) && m < |cfg.images| && u < |Listing(Target(s, cfg, e).units, cfg)|
    ensures var t := Target(s, cfg, e); var unit := Listing(t.units, cfg)[u]; var medium := MediaKeys(cfg)[m];
      && (exists a :: 0 <= a < |cfg.images| && UnitMedia(unit, medium, a, Image) in t.unitMedia)
      && (forall a, b | UnitMedia(unit, medium, a, Image) in t.unitMedia
            && UnitMedia(unit, medium, b, Image) in t.unitMedia :: a == b)
  {
    var t := Target(s, cfg, e);
    var unit, medium, n := Listing(t.units, cfg)[u], MediaKeys(cfg)[m], |cfg.images|;
    GalleryExact(s, cfg, e);
    RowIsPermutation(u, n, m);
    var a :| 0 <= a < n && Slot(u, a, n) == m;
    assert UnitMedia(unit, medium, a, Image) in t.unitMedia;
    forall b: int | UnitMedia(unit, medium, b, Image) in t.unitMedia
      ensures 0 <= b < n && Slot(u, b, n) == m
    {
      SlotOfRow(s, cfg, e, u, b, m);
    }
  }

  lemma LatinColumn(s: Store, cfg: Config, e: Env, w: nat, i: nat, m: nat)
    requires WellFormed(cfg) && m < |cfg.images| && i < |cfg.images|
    requires w + |cfg.images| <= |Listing(Target(s, cfg, e).units, cfg)|
    ensures var t := Target(s, cfg, e); var listing := Listing(t.units, cfg); var medium := MediaKeys(cfg)[m];
      && (exists v :: w <= v < w + |cfg.images| && UnitMedia(listing[v], medium, i, Image) in t.unitMedia)
      && (forall u, v | w <= u < w + |cfg.images| && w <= v < w + |cfg.images|
            && UnitMedia(listing[u], medium, i, Image) in t.unitMedia
            && UnitMedia(listing[v], medium, i, Image) in t.unitMedia :: u == v)
  {
    var t := Target(s, cfg, e);
    var listing, medium, n := Listing(t.units, cfg), MediaKeys(cfg)[m], |cfg.images|;
    GalleryExact(s, cfg, e);
    ColumnIsPermutation(w, n, i, m);
    var v :| w <= v < w + n && Slot(v, i, n) == m;
    assert UnitMedia(listing[v], medium, i, Image) in t.unitMedia;
    forall u | w <= u < w + n && UnitMedia(listing[u], medium, i, Image) in t.unitMedia
      ensures Slot(u, i, n) == m
    {
      SlotOfRow(s, cfg, e, u, i, m);
    }
  }

  /** The stored galleries form a Latin square: a listed unit shows each medium at exactly one sort
      position, and in any n consecutive listed units each position shows each medium at exactly one unit. */
  lemma GalleryLatin(s: Store, cfg: Config, e: Env, u: nat, i: nat, m: nat)
    requires WellFormed(cfg) && m < |cfg.images| && i < |cfg.images|
    requires u < |Listing(Target(s, cfg, e).units, cfg)|
    ensures var t := Target(s, cfg, e); var unit := Listing(t.units, cfg)[u]; var medium := MediaKeys(cfg)[m];
      && (exists a :: 0 <= a < |cfg.images| && UnitMedia(unit, medium, a, Image) in t.unitMedia)
      && (forall a, b | UnitMedia(unit, medium, a, Image) in t.unitMedia
            && UnitMedia(unit, medium, b, Image) in t.unitMedia :: a == b)
    ensures var t := Target(s, cfg, e); var listing := Listing(t.units, cfg); var medium := MediaKeys(cfg)[m];
            u + |cfg.images| <= |listing| ==>
      && (exists v :: u <= v < u + |cfg.images| && UnitMedia(listing[v], medium, i, Image) in t.unitMedia)
      && (forall v, w | u <= v < u + |cfg.images| && u <= w < u + |cfg.images|
            && UnitMedia(listing[v], medium, i, Image) in t.unitMedia
            && UnitMedia(listing[w], medium, i, Image) in t.unitMedia :: v == w)
  {
    LatinRow(s, cfg, e, u, m);
    if u + |cfg.images| <= |Listing(Target(s, cfg, e).units, cfg)| {
      LatinColumn(s, cfg, e, u, i, m);
    }
  }

  lemma SlotOfRow(s: Store, cfg: Config, e: Env, u: nat, i: int, m: nat)
    requires WellFormed(cfg) && m < |cfg.images| && u < |Listing(Target(s, cfg, e).units, cfg)|
    requires var t := Target(s, cfg, e);
             UnitMedia(Listing(t.units, cfg)[u], MediaKeys(cfg)[m], i, Image) in t.unitMedia
    ensures 0 <= i < |cfg.images| && Slot(u, i, |cfg.images|) == m
  {
    var t := Target(s, cfg, e);
    var listing, keys := Listing(t.units, cfg), MediaKeys(cfg);
    GalleryBounds(s, cfg, e);
    ListingFacts(t.units, cfg);
    var v, j := RowsAreAssigned(listing, keys, UnitMedia(listing[u], keys[m], i, Image));
    assert u == v;
  }

  lemma ShownBy(s: Store, cfg: Config, e: Env, i: nat, m: nat)
    requires WellFormed(cfg) && i < |cfg.images| && m < |cfg.images|
    ensures var t := Target(s, cfg, e); var listing := Listing(t.units, cfg);
            |Showing(t.unitMedia, listing, cfg.images[m].storageKey, i)| == Uses(|listing|, |cfg.images|, i, m)
  {
    var t := Target(s, cfg, e);
    var listing, keys := Listing(t.units, cfg), MediaKeys(cfg);
    ListingFacts(t.units, cfg);
    GalleryExact(s, cfg, e);
    ShowingCount(t.unitMedia, listing, |listing|, keys, i, m);
    assert listing[..|listing|] == listing;
  }

  lemma ShowingMembers(table: set<UnitMedia>, listing: seq<string>, units: set<string>, medium: string, i: int)
    requires forall c :: c in listing <==> c in units
    ensures Showing(table, listing, medium, i) == set c | c in units && UnitMedia(c, medium, i, Image) in table
  {
  }

  /** Counted over the stored rows: at each sort position a medium is shown by floor(U / n) or
      ceil(U / n) of the U units, so two media differ by at most one. */
  lemma GalleryBalanced(s: Store, cfg: Config, e: Env, i: nat, m: nat, k: nat)
    requires WellFormed(cfg) && i < |cfg.images| && m < |cfg.images| && k < |cfg.images|
    ensures var t := Target(s, cfg, e);
            var shown := set c | c in t.units && t.units[c].property == "panoma";
            var n, U := |cfg.images|, |shown|;
            var a := |set c | c in shown && UnitMedia(c, cfg.images[m].storageKey, i, Image) in t.unitMedia|;
            var b := |set c | c in shown && UnitMedia(c, cfg.images[k].storageKey, i, Image) in t.unitMedia|;
      && U / n <= a <= U / n + (if U % n == 0 then 0 else 1)
      && -1 <= a - b <= 1
  {
    var t := Target(s, cfg, e);
    var listing := Listing(t.units, cfg);
    ListingFacts(t.units, cfg);
    ListingLength(listing, Members(t.units), cfg.less);
    ShownBy(s, cfg, e, i, m);
    ShownBy(s, cfg, e, i, k);
    var shown := set c | c in t.units && t.units[c].property == "panoma";
    assert shown == Members(t.units);
    ShowingMembers(t.unitMedia, listing, shown, cfg.images[m].storageKey, i);
    ShowingMembers(t.unitMedia, listing, shown, cfg.images[k].storageKey, i);
    Balanced(|listing|, |cfg.images|, i, m, k);
  }

  lemma {:induction false} ListingLength(xs: seq<string>, m: set<string>, less: (string, string) -> bool)
    requires StrictTotal(less) && Lists(xs, m, less)
    ensures |xs| == |m|
  {
    NothingToList(xs, m, less);
    if xs != [] {
      TailLists(xs, m, less);
      ListingLength(xs[1..], m - {xs[0]}, less);
      assert xs[0] in m;
    }
  }

  /** Any order of the unit and date iterations gives the same rates, or the same failure. */
  lemma RatesAnyOrder(t: Store, units: map<string, Unit>, cfg: Config, listing: seq<string>, shuffled: seq<RateEntry>)
    requires WellFormed(cfg) && forall c :: c in listing ==> c in t.units
    requires multiset(shuffled) == multiset(RateEntries(listing, units, cfg.days))
    ensures Play(t, RateSteps(shuffled)) == Play(t, RateSteps(RateEntries(listing, units, cfg.days)))
  {
    var entries := RateEntries(listing, units, cfg.days);
    SameElements(shuffled, entries);
    forall r | r in entries
      ensures r.unit in t.units
    {
      var i, j := RateEntryOf(listing, units, cfg.days, r);
    }
    RateEntriesConsistent(listing, units, cfg.days);
    SameIsConsistent(shuffled, entries, RateKey);
    PlayRates(t, entries);
    PlayRates(t, shuffled);
    RowsRepeatable();
    AnyOrder(t.rates, shuffled, entries, RateKey, RateRow);
  }

  lemma SameIsConsistent<K, E>(xs: seq<E>, ys: seq<E>, key: E -> K)
    requires Consistent(ys, key) && forall e :: e in xs <==> e in ys
    ensures Consistent(xs, key)
  {
    forall i, j | 0 <= i < j < |xs| && key(xs[i]) == key(xs[j])
      ensures xs[i] == xs[j]
    {
      IndexAt(ys, key, xs[i]);
      IndexAt(ys, key, xs[j]);
    }
  }

  // ----- What the environment can change -----

  /** Stored rows equal, new rows equal up to their creation stamp. */
  ghost predicate UnitsUpToStamps(s: Store, t: map<string, Unit>, u: map<string, Unit>) {
    && t.Keys == u.Keys
    && (forall c :: c in s.units && c in t ==> t[c] == u[c])
    && (forall c :: c in t ==> t[c].(publishedAt := None) == u[c].(publishedAt := None))
  }

  /** Stored rows equal, a new row equal up to its creation stamp and its city's id. */
  ghost predicate PropertiesUpToStamps(s: Store, t: map<string, Property>, u: map<string, Property>) {
    && t.Keys == u.Keys
    && (forall p :: p in s.properties && p in t ==> t[p] == u[p])
    && (forall p :: p in t ==> t[p].(location := 0, publishedAt := None) == u[p].(location := 0, publishedAt := None))
  }

  /** Stored rows equal, a new city equal up to its id. */
  ghost predicate CitiesUpToId(s: Store, t: map<int, Location>, a: int, u: map<int, Location>, b: int) {
    if Roots(s.locations) != {} then t == u == s.locations
    else a in t && b in u && t[a] == u[b] && t - {a} == u - {b} == s.locations
  }

  ghost predicate UsersUpToHash(t: map<string, User>, u: map<string, User>) {
    t.Keys == u.Keys && forall m :: m in t ==> t[m].(passwordHash := "") == u[m].(passwordHash := "")
  }

  lemma UnitsDiffer(s: Store, cfg: Config, a: Env, b: Env)
    requires WellFormed(cfg)
    ensures UnitsUpToStamps(s, TargetUnits(s, cfg, a), TargetUnits(s, cfg, b))
  {
    UnitsAgree(cfg, a, b);
    var t, u := TargetUnits(s, cfg, a), TargetUnits(s, cfg, b);
    forall c | c in t
      ensures t[c].(publishedAt := None) == u[c].(publishedAt := None)
      ensures c in s.units ==> t[c] == u[c]
    {
      UnitIndexShift(cfg, a, b, c);
    }
  }

  lemma PropertiesDiffer(s: Store, cfg: Config, a: Env, b: Env)
    ensures PropertiesUpToStamps(s, Bulk(s.properties, PropertyEntries(cfg, a), PropertyRow),
                                 Bulk(s.properties, PropertyEntries(cfg, b), PropertyRow))
  {
  }

  lemma CitiesDiffer(s: Store, a: Env, b: Env)
    requires CityChoice(s, a.city) && CityChoice(s, b.city)
    ensures CitiesUpToId(s, TargetLocations(s, a), a.city, TargetLocations(s, b), b.city)
  {
  }

  lemma UsersDiffer(s: Store, cfg: Config, a: Env, b: Env)
    ensures UsersUpToHash(TargetUsers(s, cfg, a), TargetUsers(s, cfg, b))
  {
  }

  lemma RatesSame(s: Store, cfg: Config, a: Env, b: Env)
    requires WellFormed(cfg)
    ensures Listing(TargetUnits(s, cfg, a), cfg) == Listing(TargetUnits(s, cfg, b), cfg)
    ensures TargetRates(s, cfg, a) == TargetRates(s, cfg, b)
  {
    ListingStable(s, cfg, a, b);
    RatesStable(Listing(TargetUnits(s, cfg, a), cfg), TargetUnits(s, cfg, a), TargetUnits(s, cfg, b), cfg.days);
  }

  lemma OtherTablesSame(s: Store, cfg: Config, a: Env, b: Env)
    requires WellFormed(cfg)
    ensures var t, u := Target(s, cfg, a), Target(s, cfg, b);
            t.(locations := u.locations, properties := u.properties, units := u.units, users := u.users) == u
  {
    RatesSame(s, cfg, a, b);
  }

  /** Runs from one store that differ in clock, ids and salt differ in nothing else: the
      creation stamps of new rows, the id of a new city, and the password hash. */
  lemma RunsDifferOnlyInStamps(s: Store, cfg: Config, a: Env, b: Env)
    requires WellFormed(cfg) && CityChoice(s, a.city) && CityChoice(s, b.city)
    ensures UnitsUpToStamps(s, Target(s, cfg, a).units, Target(s, cfg, b).units)
    ensures PropertiesUpToStamps(s, Target(s, cfg, a).properties, Target(s, cfg, b).properties)
    ensures CitiesUpToId(s, Target(s, cfg, a).locations, a.city, Target(s, cfg, b).locations, b.city)
    ensures UsersUpToHash(Target(s, cfg, a).users, Target(s, cfg, b).users)
    ensures var t, u := Target(s, cfg, a), Target(s, cfg, b);
            t.(locations := u.locations, properties := u.properties, units := u.units, users := u.users) == u
  {
    UnitsDiffer(s, cfg, a, b);
    PropertiesDiffer(s, cfg, a, b);
    CitiesDiffer(s, a, b);
    UsersDiffer(s, cfg, a, b);
    OtherTablesSame(s, cfg, a, b);
  }

  // ----- Running again -----

  lemma MixUnit(s: Store, t: Store, cfg: Config, first: Env, second: Env, c: string)
    requires WellFormed(cfg) && t.units == TargetUnits(s, cfg, first)
    ensures Get(TargetUnits(s, cfg, Mix(s, t, first, second)), c) == Get(t.units, c)
  {
    UnitIndexShift(cfg, first, Mix(s, t, first, second), c);
  }

  lemma MixUnits(s: Store, t: Store, cfg: Config, first: Env, second: Env)
    requires WellFormed(cfg) && t.units == TargetUnits(s, cfg, first)
    ensures TargetUnits(s, cfg, Mix(s, t, first, second)) == t.units
  {
    var u := TargetUnits(s, cfg, Mix(s, t, first, second));
    forall c
      ensures c in u <==> c in t.units
      ensures c in u ==> u[c] == t.units[c]
    {
      MixUnit(s, t, cfg, first, second, c);
    }
  }

  lemma MixLocations(s: Store, t: Store, cfg: Config, first: Env, second: Env)
    requires CityChoice(s, first.city) && CityChoice(t, second.city)
    requires t.locations == TargetLocations(s, first)
    ensures TargetLocations(s, Mix(s, t, first, second)) == t.locations
  {
    if Roots(s.locations) == {} {
      assert Roots(t.locations) == {first.city};
    }
  }

  lemma MixProperties(s: Store, t: Store, cfg: Config, first: Env, second: Env)
    requires t.properties == Bulk(s.properties, PropertyEntries(cfg, first), PropertyRow)
    ensures Bulk(s.properties, PropertyEntries(cfg, Mix(s, t, first, second)), PropertyRow) == t.properties
  {
  }

  lemma MixIsFirst(s: Store, cfg: Config, first: Env, second: Env)
    requires WellFormed(cfg) && CityChoice(s, first.city) && CityChoice(Target(s, cfg, first), second.city)
    ensures var t := Target(s, cfg, first); var m := Mix(s, t, first, second);
            Target(s, cfg, m) == t.(users := TargetUsers(s, cfg, m))
  {
    var t := Target(s, cfg, first);
    MixUnits(s, t, cfg, first, second);
    MixLocations(s, t, cfg, first, second);
    MixProperties(s, t, cfg, first, second);
    RatesSame(s, cfg, first, Mix(s, t, first, second));
  }

  /** A second complete run, at any later time, throws nothing and changes nothing but the
      administrator's salted hash. In particular publishedAt never moves. */
  lemma Idempotent(s: Store, cfg: Config, first: Env, second: Env, order: seq<string>)
    requires WellFormed(cfg) && CityChoice(s, first.city) && Completable(s, cfg) && Schedule(order, cfg)
    requires CityChoice(Target(s, cfg, first), second.city)
    ensures var t := Target(s, cfg, first);
            Play(t, Script(t, cfg, second, order)) == Ok(t.(users := TargetUsers(t, cfg, second)))
  {
    var t := Target(s, cfg, first);
    TargetIsBetween(s, cfg, first);
    ResumeVerdict(s, t, cfg, first, second);
    RunOutcome(t, cfg, second, order);
    MixIsFirst(s, cfg, first, second);
    ResumeAdmin(s, t, cfg, first, second);
  }

  lemma TargetIsBetween(s: Store, cfg: Config, e: Env)
    requires WellFormed(cfg) && CityChoice(s, e.city) && Completable(s, cfg)
    ensures Between(s, Target(s, cfg, e), cfg, e)
  {
    var whole := Script(s, cfg, e, cfg.permissions);
    RunOutcome(s, cfg, e, cfg.permissions);
    assert whole[..|whole|] == whole;
    StoppedRun(s, cfg, e, cfg.permissions, |whole|);
  }
}
