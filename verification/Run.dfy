/** The list of calls computes the target, phase by phase. */
module Run {
  import opened Basics
  import opened Entities
  import opened SeedConfig
  import opened Ordering
  import opened Tables
  import opened Rotation
  import opened Blocks
  import opened Steps
  import opened Plan

  // ----- Entries are well-behaved -----

  lemma RowsRepeatable()
    ensures Repeatable(PermissionRow) && Repeatable(RoleRow) && Repeatable(UnitRow)
    ensures Repeatable(MediaRow) && Repeatable(RateRow)
  {
  }

  lemma UnitEntriesConsistent(cfg: Config, e: Env)
    requires WellFormed(cfg)
    ensures Consistent(UnitEntries(cfg, e), UnitKey)
  {
  }

  lemma {:induction false} RateEntryIn(listing: seq<string>, units: map<string, Unit>, days: seq<Day>, i: nat, j: nat)
    requires i < |listing| && j < |days|
    ensures RateEntry(listing[i], days[j].date, Scaled(BasePrice(units, listing[i]), days[j].percent))
            in RateEntries(listing, units, days)
  {
    var n := |listing| - 1;
    if i < n {
      RateEntryIn(listing[..n], units, days, i, j);
    } else {
      var row := DayRates(listing[n], BasePrice(units, listing[n]), days);
      assert row[j] in row;
    }
  }

  lemma {:induction false} RateEntryOf(listing: seq<string>, units: map<string, Unit>, days: seq<Day>, r: RateEntry)
      returns (i: nat, j: nat)
    requires r in RateEntries(listing, units, days)
    ensures i < |listing| && j < |days|
    ensures r == RateEntry(listing[i], days[j].date, Scaled(BasePrice(units, listing[i]), days[j].percent))
  {
    var n := |listing| - 1;
    if r in RateEntries(listing[..n], units, days) {
      i, j := RateEntryOf(listing[..n], units, days, r);
    } else {
      i := n;
      var row := DayRates(listing[n], BasePrice(units, listing[n]), days);
      j :| 0 <= j < |row| && row[j] == r;
    }
  }

  lemma RateEntriesConsistent(listing: seq<string>, units: map<string, Unit>, days: seq<Day>)
    requires forall i, j :: 0 <= i < j < |days| ==> days[i].date != days[j].date
    ensures Consistent(RateEntries(listing, units, days), RateKey)
  {
    var rs := RateEntries(listing, units, days);
    forall a, b | 0 <= a < b < |rs| && RateKey(rs[a]) == RateKey(rs[b])
      ensures rs[a] == rs[b]
    {
      var i, j := RateEntryOf(listing, units, days, rs[a]);
      var k, l := RateEntryOf(listing, units, days, rs[b]);
    }
  }

  // ----- Phases -----

  lemma {:induction false} PlayPermissions(s: Store, order: seq<string>)
    ensures Play(s, PermissionSteps(order)) ==
            Ok(s.(permissions := UpsertAll(s.permissions, order, PermissionKey, PermissionRow)))
  {
    if order != [] {
      var n := |order| - 1;
      PlayPermissions(s, order[..n]);
      PlayThen(s, PermissionSteps(order[..n]),
               s.(permissions := UpsertAll(s.permissions, order[..n], PermissionKey, PermissionRow)),
               UpsertPermission(order[n]));
    }
  }

  /** Every order of the concurrent upserts gives the same table. */
  lemma PermissionsConfluent(s: Store, cfg: Config, order: seq<string>)
    requires Schedule(order, cfg)
    ensures Play(s, PermissionSteps(order)) == Ok(s.(permissions := TargetPermissions(s, cfg)))
  {
    PlayPermissions(s, order);
    PermissionsAnyOrder(s.permissions, order, cfg.permissions);
  }

  lemma PermissionsAnyOrder(t: map<string, Permission>, xs: seq<string>, ys: seq<string>)
    requires multiset(xs) == multiset(ys)
    ensures UpsertAll(t, xs, PermissionKey, PermissionRow) == Bulk(t, Index(ys, PermissionKey), PermissionRow)
  {
    RowsRepeatable();
    SameElements(xs, ys);
    AnyOrder(t, xs, ys, PermissionKey, PermissionRow);
    FoldIsBulk(t, ys, PermissionKey, PermissionRow);
  }

  lemma PlayAccess(s: Store, t: Store, cfg: Config)
    requires t == s.(permissions := TargetPermissions(s, cfg))
    ensures Play(t, AccessSteps(AllPermissions(s, cfg), StaffPermissions(s, cfg))) ==
            Ok(t.(roles := Bulk(s.roles, Index(ROLE_ENTRIES, RoleKey), RoleRow), grants := TargetGrants(s, cfg)))
  {
    var all, staff := AllPermissions(s, cfg), StaffPermissions(s, cfg);
    var first := [UpsertRole(ROLE_ENTRIES[0]), UpsertRole(ROLE_ENTRIES[1])];
    var second := [GrantAll(OWNER, all), GrantAll(STAFF, staff)];
    PlayRoles(t);
    PlayGrants(t.(roles := Bulk(s.roles, Index(ROLE_ENTRIES, RoleKey), RoleRow)), all, staff);
    PlayAppend(t, first, second);
    assert first + second == AccessSteps(all, staff);
  }

  lemma PlayRoles(t: Store)
    ensures Play(t, [UpsertRole(ROLE_ENTRIES[0]), UpsertRole(ROLE_ENTRIES[1])])
         == Ok(t.(roles := Bulk(t.roles, Index(ROLE_ENTRIES, RoleKey), RoleRow)))
    ensures {OWNER, STAFF} <= Bulk(t.roles, Index(ROLE_ENTRIES, RoleKey), RoleRow).Keys
  {
    PlayTwo(t, UpsertRole(ROLE_ENTRIES[0]), UpsertRole(ROLE_ENTRIES[1]));
    RolesBulk(t.roles);
    RoleIndex();
  }

  lemma PlayGrants(t: Store, all: set<string>, staff: set<string>)
    requires {OWNER, STAFF} <= t.roles.Keys && staff <= all <= t.permissions.Keys
    ensures Play(t, [GrantAll(OWNER, all), GrantAll(STAFF, staff)])
         == Ok(t.(grants := t.grants + (set p | p in all :: (OWNER, p)) + (set p | p in staff :: (STAFF, p))))
  {
    PlayTwo(t, GrantAll(OWNER, all), GrantAll(STAFF, staff));
  }

  lemma RolesBulk(roles: map<string, Role>)
    ensures Upsert(Upsert(roles, OWNER, ROLE_ENTRIES[0], RoleRow), STAFF, ROLE_ENTRIES[1], RoleRow)
            == Bulk(roles, Index(ROLE_ENTRIES, RoleKey), RoleRow)
  {
    RoleIndex();
    assert OWNER != STAFF by {
      assert OWNER[0] != STAFF[0];
    }
  }

  lemma RoleIndex()
    ensures Index(ROLE_ENTRIES, RoleKey) == map[OWNER := ROLE_ENTRIES[0], STAFF := ROLE_ENTRIES[1]]
  {
    assert ROLE_ENTRIES[..1] == [ROLE_ENTRIES[0]];
    assert ROLE_ENTRIES[..1][..0] == [];
    assert Index(ROLE_ENTRIES[..1], RoleKey) == map[OWNER := ROLE_ENTRIES[0]];
  }

  lemma PlayTwo(s: Store, a: Step, b: Step)
    ensures Play(s, [a, b]) == match Exec(s, a) case Err(e) => Err(e) case Ok(m) => Exec(m, b)
  {
    PlayOne(s, [], a);
    PlayOne(s, [a], b);
    assert [] + [a] == [a];
    assert [a] + [b] == [a, b];
  }

  lemma PlayPlace(s: Store, t: Store, cfg: Config, e: Env)
    requires CityChoice(s, e.city) && t.locations == s.locations && t.properties == s.properties
    ensures Play(t, PlaceSteps(cfg, e)) ==
            if !PropertyFree(s, cfg) then Err(UniqueViolation)
            else Ok(t.(locations := TargetLocations(s, e),
                       properties := Bulk(s.properties, PropertyEntries(cfg, e), PropertyRow)))
  {
    var entry := PropertyEntry(cfg.property, e.city, e.propertyStamp);
    PlayTwo(t, EnsureCity(e.city), UpsertProperty(entry));
    assert Exec(t, EnsureCity(e.city)) == Ok(t.(locations := TargetLocations(s, e)));
    PropertyBulk(t.properties, cfg, e);
  }

  lemma PropertyBulk(properties: map<string, Property>, cfg: Config, e: Env)
    ensures Upsert(properties, PROPERTY_SLUG, PropertyEntry(cfg.property, e.city, e.propertyStamp), PropertyRow)
         == Bulk(properties, PropertyEntries(cfg, e), PropertyRow)
  {
  }

  /** A row made from an entry carries the keys of its unit. */
  lemma UnitsDone(units: map<string, Unit>, cfg: Config, e: Env, k: nat, c: string) returns (i: nat)
    requires WellFormed(cfg) && k <= |cfg.Units()|
    requires c in UpsertAll(units, UnitEntries(cfg, e)[..k], UnitKey, UnitRow) && c !in units
    ensures i < k && cfg.Units()[i].code == c
    ensures UpsertAll(units, UnitEntries(cfg, e)[..k], UnitKey, UnitRow)[c]
         == UnitRow(UnitEntry(cfg.Units()[i], e.unitStamp(c)), None)
  {
    UnitEntriesConsistent(cfg, e);
    RowsRepeatable();
    i := Created(units, UnitEntries(cfg, e)[..k], UnitKey, UnitRow, c);
  }

  /** Secondary keys of stored units never change. */
  lemma UnitsKeepKeys(units: map<string, Unit>, entries: seq<UnitEntry>, c: string)
    requires Consistent(entries, UnitKey) && c in units
    ensures var done := UpsertAll(units, entries, UnitKey, UnitRow);
            && c in done && done[c].internalCode == units[c].internalCode
            && done[c].slugVi == units[c].slugVi && done[c].slugEn == units[c].slugEn
  {
  }

  /** Creating earlier units of the list takes no key that a later one needs. */
  lemma UnitsStayFree(units: map<string, Unit>, cfg: Config, e: Env, k: nat)
    requires WellFormed(cfg) && k < |cfg.Units()|
    ensures var u := cfg.Units()[k];
            var done := UpsertAll(units, UnitEntries(cfg, e)[..k], UnitKey, UnitRow);
            && (u.code in done <==> u.code in units)
            && (u.code !in units ==> (Taken(done, u) <==> Taken(units, u)))
  {
    var u := cfg.Units()[k];
    var done := UpsertAll(units, UnitEntries(cfg, e)[..k], UnitKey, UnitRow);
    UnitEntriesConsistent(cfg, e);
    forall c | c in done && c !in units
      ensures c != u.code && done[c].internalCode != u.InternalCode()
              && done[c].slugVi != u.SlugVi() && done[c].slugEn != u.SlugEn()
    {
      var i := UnitsDone(units, cfg, e, k, c);
      assert cfg.Units()[i].code != cfg.Units()[k].code && !SpecsClash(cfg.Units()[i], cfg.Units()[k]);
    }
    forall c | c in units
      ensures c in done && done[c].internalCode == units[c].internalCode
              && done[c].slugVi == units[c].slugVi && done[c].slugEn == units[c].slugEn
    {
      UnitsKeepKeys(units, UnitEntries(cfg, e)[..k], c);
    }
  }

  ghost predicate FreeUpTo(units: map<string, Unit>, cfg: Config, k: nat)
    requires k <= |cfg.Units()|
  {
    forall i :: 0 <= i < k ==> cfg.Units()[i].code in units || !Taken(units, cfg.Units()[i])
  }

  lemma FreeNext(units: map<string, Unit>, cfg: Config, k: nat)
    requires 0 < k <= |cfg.Units()|
    ensures FreeUpTo(units, cfg, k) <==>
            FreeUpTo(units, cfg, k - 1) && (cfg.Units()[k - 1].code in units || !Taken(units, cfg.Units()[k - 1]))
  {
  }

  lemma ExecUnit(s: Store, e: UnitEntry)
    requires PROPERTY_SLUG in s.properties
    ensures Exec(s, UpsertUnit(e)) ==
            if e.spec.code in s.units || !Taken(s.units, e.spec)
            then Ok(s.(units := Upsert(s.units, e.spec.code, e, UnitRow)))
            else Err(UniqueViolation)
  {
  }

  /** One more unit is free after the earlier ones exactly when it was free before them. */
  lemma FreeAfter(units: map<string, Unit>, cfg: Config, e: Env, k: nat)
    requires WellFormed(cfg) && 0 < k <= |cfg.Units()|
    ensures var u := cfg.Units()[k - 1];
            var done := UpsertAll(units, UnitEntries(cfg, e)[..k - 1], UnitKey, UnitRow);
            FreeUpTo(units, cfg, k) <==> FreeUpTo(units, cfg, k - 1) && (u.code in done || !Taken(done, u))
  {
    UnitsStayFree(units, cfg, e, k - 1);
    FreeNext(units, cfg, k);
  }

  lemma {:induction false} PlayUnitsUpTo(s: Store, cfg: Config, e: Env, k: nat)
    requires WellFormed(cfg) && k <= |cfg.Units()| && PROPERTY_SLUG in s.properties
    ensures Play(s, UnitSteps(UnitEntries(cfg, e)[..k])) ==
            if FreeUpTo(s.units, cfg, k)
            then Ok(s.(units := UpsertAll(s.units, UnitEntries(cfg, e)[..k], UnitKey, UnitRow)))
            else Err(UniqueViolation)
  {
    if k > 0 {
      PlayUnitsUpTo(s, cfg, e, k - 1);
      FreeAfter(s.units, cfg, e, k);
      UnitListTake(s, UnitEntries(cfg, e), k, FreeUpTo(s.units, cfg, k - 1));
    }
  }

  lemma UnitListTake(s: Store, entries: seq<UnitEntry>, k: nat, reached: bool)
    requires 0 < k <= |entries| && PROPERTY_SLUG in s.properties
    requires Play(s, UnitSteps(entries[..k - 1])) ==
             if reached then Ok(s.(units := UpsertAll(s.units, entries[..k - 1], UnitKey, UnitRow)))
             else Err(UniqueViolation)
    ensures var u, before := entries[k - 1].spec, UpsertAll(s.units, entries[..k - 1], UnitKey, UnitRow);
            Play(s, UnitSteps(entries[..k])) ==
            if reached && (u.code in before || !Taken(before, u))
            then Ok(s.(units := UpsertAll(s.units, entries[..k], UnitKey, UnitRow)))
            else Err(UniqueViolation)
  {
    assert entries[..k][..k - 1] == entries[..k - 1];
    UnitListNext(s, entries[..k], reached);
  }

  lemma UnitListNext(s: Store, entries: seq<UnitEntry>, reached: bool)
    requires entries != [] && PROPERTY_SLUG in s.properties
    requires var init := entries[..|entries| - 1];
             Play(s, UnitSteps(init)) ==
             if reached then Ok(s.(units := UpsertAll(s.units, init, UnitKey, UnitRow))) else Err(UniqueViolation)
    ensures var init, last := entries[..|entries| - 1], entries[|entries| - 1];
            var before := UpsertAll(s.units, init, UnitKey, UnitRow);
            Play(s, UnitSteps(entries)) ==
            if reached && (last.spec.code in before || !Taken(before, last.spec))
            then Ok(s.(units := UpsertAll(s.units, entries, UnitKey, UnitRow)))
            else Err(UniqueViolation)
  {
    var init, last := entries[..|entries| - 1], entries[|entries| - 1];
    if reached {
      var m := s.(units := UpsertAll(s.units, init, UnitKey, UnitRow));
      PlayThen(s, UnitSteps(init), m, UpsertUnit(last));
      ExecUnit(m, last);
    } else {
      PlayErr(s, UnitSteps(init), [UpsertUnit(last)]);
    }
  }

  lemma PlayUnits(s: Store, t: Store, cfg: Config, e: Env)
    requires WellFormed(cfg) && t.units == s.units && PROPERTY_SLUG in t.properties
    ensures Play(t, UnitSteps(UnitEntries(cfg, e))) ==
            if UnitsFree(s, cfg) then Ok(t.(units := TargetUnits(s, cfg, e))) else Err(UniqueViolation)
  {
    var n := |cfg.Units()|;
    PlayUnitsUpTo(t, cfg, e, n);
    assert UnitEntries(cfg, e)[..n] == UnitEntries(cfg, e);
    RowsRepeatable();
    UnitEntriesConsistent(cfg, e);
    FoldIsBulk(s.units, UnitEntries(cfg, e), UnitKey, UnitRow);
    assert FreeUpTo(s.units, cfg, n) <==> UnitsFree(s, cfg) by {
      if FreeUpTo(s.units, cfg, n) {
        forall u | u in cfg.Units()
          ensures u.code in s.units || !Taken(s.units, u)
        {
          var i :| 0 <= i < n && cfg.Units()[i] == u;
        }
      }
    }
  }

  lemma {:induction false} PlayMediaFold(s: Store, images: seq<ImageSpec>)
    ensures Play(s, MediaSteps(images)) == Ok(s.(media := UpsertAll(s.media, images, MediaKey, MediaRow)))
  {
    if images != [] {
      var n := |images| - 1;
      PlayMediaFold(s, images[..n]);
      PlayThen(s, MediaSteps(images[..n]), s.(media := UpsertAll(s.media, images[..n], MediaKey, MediaRow)),
               UpsertMedia(images[n]));
    }
  }

  lemma PlayMedia(s: Store, cfg: Config)
    requires WellFormed(cfg)
    ensures Play(s, MediaSteps(cfg.images)) ==
            Ok(s.(media := Bulk(s.media, Index(cfg.images, MediaKey), MediaRow)))
  {
    PlayMediaFold(s, cfg.images);
    RowsRepeatable();
    FoldIsBulk(s.media, cfg.images, MediaKey, MediaRow);
  }

  /** The gallery rebuild never meets a duplicate: the rotation is a Latin square and the
      rows of the listed units have just been deleted. */
  lemma PlayGallery(t: Store, listing: seq<string>, cfg: Config)
    requires Distinct(MediaKeys(cfg)) && Distinct(listing)
    requires forall c :: c in listing ==> c in t.units
    requires forall k :: k in MediaKeys(cfg) ==> k in t.media
    ensures Play(t, GallerySteps(listing, cfg)) ==
            Ok(t.(unitMedia := Elsewhere(t.unitMedia, listing) + RowSet(MediaRows(listing, MediaKeys(cfg)))))
  {
    GalleryRowsFit(listing, MediaKeys(cfg), t);
    ReplaceGallery(t, listing, MediaRows(listing, MediaKeys(cfg)));
  }

  lemma ReplaceGallery(t: Store, listing: seq<string>, rows: seq<UnitMedia>)
    requires Insertable(rows, Elsewhere(t.unitMedia, listing))
    requires PlacementsResolve(RowSet(rows), t.units.Keys, t.media.Keys)
    ensures Play(t, [ClearUnitMedia(listing), CreateUnitMedia(rows)])
         == Ok(t.(unitMedia := Elsewhere(t.unitMedia, listing) + RowSet(rows)))
  {
    PlayTwo(t, ClearUnitMedia(listing), CreateUnitMedia(rows));
  }

  lemma GalleryRowsFit(listing: seq<string>, keys: seq<string>, t: Store)
    requires Distinct(listing) && Distinct(keys)
    requires forall c :: c in listing ==> c in t.units
    requires forall k :: k in keys ==> k in t.media
    ensures Insertable(MediaRows(listing, keys), Elsewhere(t.unitMedia, listing))
    ensures PlacementsResolve(RowSet(MediaRows(listing, keys)), t.units.Keys, t.media.Keys)
  {
    RowsNeverClash(listing, keys);
    forall r | r in MediaRows(listing, keys)
      ensures r.unit in listing && r.media in keys
    {
      var u, i := RowsAreAssigned(listing, keys, r);
    }
  }

  lemma BlockRowsValid(listing: seq<string>, cfg: Config)
    requires WellFormed(cfg)
    ensures IntervalsValid(BlockRows(listing, cfg.templates))
    ensures forall b :: b in BlockRows(listing, cfg.templates) ==> b.unit in listing && IsSeeded(b)
  {
    BlockRowsExact(listing, cfg.templates);
    var rows := BlockRows(listing, cfg.templates);
    forall b | b in rows
      ensures b.unit in listing && b.startDate < b.endDate && IsSeeded(b)
    {
      var i :| 0 <= i < |rows| && rows[i] == b;
      assert cfg.templates[i] in cfg.templates;
    }
  }

  lemma PlayBlocks(t: Store, listing: seq<string>, cfg: Config)
    requires WellFormed(cfg)
    requires forall c :: c in listing ==> c in t.units
    ensures Play(t, BlockSteps(listing, cfg)) ==
            Ok(t.(blocks := Kept(t.blocks) + BlockRows(listing, cfg.templates)))
  {
    PlayTwo(t, ClearBlocks, CreateBlocks(BlockRows(listing, cfg.templates)));
    BlockRowsValid(listing, cfg);
  }

  lemma ExecRate(s: Store, r: RateEntry)
    requires r.unit in s.units
    ensures Exec(s, UpsertRate(r)) ==
            if Fits(r.amount) then Ok(s.(rates := Upsert(s.rates, RateKey(r), r, RateRow))) else Err(NumericOverflow)
  {
  }

  lemma StorableNext(init: seq<RateEntry>, r: RateEntry)
    ensures AmountsStorable(init + [r]) <==> AmountsStorable(init) && Fits(r.amount)
  {
  }

  lemma {:induction false} PlayRates(t: Store, entries: seq<RateEntry>)
    requires forall r :: r in entries ==> r.unit in t.units
    ensures Play(t, RateSteps(entries)) ==
            if AmountsStorable(entries)
            then Ok(t.(rates := UpsertAll(t.rates, entries, RateKey, RateRow)))
            else Err(NumericOverflow)
  {
    if entries != [] {
      var n := |entries| - 1;
      var init, last := entries[..n], entries[n];
      assert entries == init + [last];
      StorableNext(init, last);
      PlayRates(t, init);
      if AmountsStorable(init) {
        var m := t.(rates := UpsertAll(t.rates, init, RateKey, RateRow));
        PlayThen(t, RateSteps(init), m, UpsertRate(last));
        ExecRate(m, last);
      } else {
        PlayErr(t, RateSteps(init), [UpsertRate(last)]);
      }
    }
  }

  lemma PlayAdmin(s: Store, t: Store, cfg: Config, e: Env)
    requires t.users == s.users && t.userRoles == s.userRoles && OWNER in t.roles
    ensures Play(t, AdminSteps(cfg, e)) ==
            if PasswordOk(cfg) then Ok(t.(users := TargetUsers(s, cfg, e), userRoles := TargetUserRoles(s, cfg)))
            else Err(PasswordTooShort)
  {
    match Admin(cfg)
    case None =>
    case Some(a) => PlayTwo(t, UpsertAdmin(a, e.passwordHash), GrantRole(a.email, OWNER));
  }

  // ----- The listing -----

  lemma ListingFacts(units: map<string, Unit>, cfg: Config)
    requires WellFormed(cfg)
    ensures Lists(Listing(units, cfg), Members(units), cfg.less)
    ensures Distinct(Listing(units, cfg))
    ensures forall c :: c in Listing(units, cfg) ==> c in units
  {
    SortedOfLists(Members(units), cfg.less);
    AscendingIsDistinct(Listing(units, cfg), cfg.less);
    forall c | c in Listing(units, cfg)
      ensures c in units
    {
      assert c in Members(units);
    }
  }

  lemma UnitIndexAt(cfg: Config, e: Env, i: nat)
    requires WellFormed(cfg) && i < |cfg.Units()|
    ensures var index := Index(UnitEntries(cfg, e), UnitKey); var u := cfg.Units()[i];
            u.code in index && index[u.code] == UnitEntry(u, e.unitStamp(u.code))
  {
    UnitEntriesConsistent(cfg, e);
    assert UnitEntries(cfg, e)[i] in UnitEntries(cfg, e);
    IndexAt(UnitEntries(cfg, e), UnitKey, UnitEntries(cfg, e)[i]);
  }

  /** The keys of the unit index are the seeded codes. */
  lemma UnitIndexOf(cfg: Config, e: Env, c: string) returns (i: nat)
    requires c in Index(UnitEntries(cfg, e), UnitKey)
    ensures i < |cfg.Units()| && cfg.Units()[i].code == c
    ensures Index(UnitEntries(cfg, e), UnitKey)[c] == UnitEntry(cfg.Units()[i], e.unitStamp(c))
  {
    var entries := UnitEntries(cfg, e);
    IndexKeys(entries, UnitKey);
    i :| 0 <= i < |entries| && entries[i] == Index(entries, UnitKey)[c];
  }

  /** Seeded units end at the configured base price; the others keep theirs. */
  lemma TargetPrices(s: Store, cfg: Config, e: Env, c: string)
    requires WellFormed(cfg) && c in TargetUnits(s, cfg, e)
    ensures cfg.Seeds(c) ==>
              exists u :: u in cfg.Units() && u.code == c && TargetUnits(s, cfg, e)[c].basePrice == u.basePrice
    ensures !cfg.Seeds(c) ==> c in s.units && TargetUnits(s, cfg, e)[c] == s.units[c]
  {
    var index := Index(UnitEntries(cfg, e), UnitKey);
    if cfg.Seeds(c) {
      var i :| 0 <= i < |cfg.Units()| && cfg.Units()[i].code == c;
      UnitIndexAt(cfg, e, i);
      assert cfg.Units()[i] in cfg.Units();
    } else if c in index {
      var i := UnitIndexOf(cfg, e, c);
    }
  }

  /** The run's rates are storable exactly when the unpriced members allow it. */
  lemma RatesFitIff(s: Store, cfg: Config, e: Env)
    requires WellFormed(cfg)
    ensures var units := TargetUnits(s, cfg, e);
            AmountsStorable(RateEntries(Listing(units, cfg), units, cfg.days))
            <==> MembersPriced(s, cfg)
  {
    var units := TargetUnits(s, cfg, e);
    var listing := Listing(units, cfg);
    var entries := RateEntries(listing, units, cfg.days);
    ListingFacts(units, cfg);
    if AmountsStorable(entries) {
      forall c, d | c in Members(s.units) && !cfg.Seeds(c) && d in cfg.days
        ensures Fits(Scaled(s.units[c].basePrice, d.percent))
      {
        TargetPrices(s, cfg, e, c);
        assert c in Members(units);
        var i :| 0 <= i < |listing| && listing[i] == c;
        var j :| 0 <= j < |cfg.days| && cfg.days[j] == d;
        RateEntryIn(listing, units, cfg.days, i, j);
      }
    }
    if MembersPriced(s, cfg) {
      forall r | r in entries
        ensures Fits(r.amount)
      {
        var i, j := RateEntryOf(listing, units, cfg.days, r);
        var c := listing[i];
        assert c in Members(units) && cfg.days[j] in cfg.days;
        TargetPrices(s, cfg, e, c);
        if !cfg.Seeds(c) {
          assert c in Members(s.units);
        }
      }
    }
  }

  // ----- The whole run -----

  /** The store when the units are listed. */
  ghost function AfterSetup(s: Store, cfg: Config, e: Env): Store {
    s.(permissions := TargetPermissions(s, cfg),
       roles := Bulk(s.roles, Index(ROLE_ENTRIES, RoleKey), RoleRow),
       grants := TargetGrants(s, cfg),
       locations := TargetLocations(s, e),
       properties := Bulk(s.properties, PropertyEntries(cfg, e), PropertyRow),
       units := TargetUnits(s, cfg, e))
  }

  /** The store when the permissions and roles are in place. */
  ghost function AfterAccess(s: Store, cfg: Config): Store {
    s.(permissions := TargetPermissions(s, cfg),
       roles := Bulk(s.roles, Index(ROLE_ENTRIES, RoleKey), RoleRow),
       grants := TargetGrants(s, cfg))
  }

  /** The store when the property is in place. */
  ghost function AfterPlace(s: Store, cfg: Config, e: Env): Store {
    AfterAccess(s, cfg).(locations := TargetLocations(s, e),
                         properties := Bulk(s.properties, PropertyEntries(cfg, e), PropertyRow))
  }

  lemma AccessOutcome(s: Store, cfg: Config, order: seq<string>)
    requires Schedule(order, cfg)
    ensures Play(s, PermissionSteps(order) + AccessSteps(AllPermissions(s, cfg), StaffPermissions(s, cfg)))
         == Ok(AfterAccess(s, cfg))
  {
    var t := s.(permissions := TargetPermissions(s, cfg));
    PermissionsConfluent(s, cfg, order);
    PlayAccess(s, t, cfg);
    PlayOnward(s, PermissionSteps(order), t, AccessSteps(AllPermissions(s, cfg), StaffPermissions(s, cfg)));
  }

  lemma PlaceOutcome(s: Store, cfg: Config, e: Env, order: seq<string>)
    requires Schedule(order, cfg) && CityChoice(s, e.city)
    ensures Play(s, PermissionSteps(order) + AccessSteps(AllPermissions(s, cfg), StaffPermissions(s, cfg))
                    + PlaceSteps(cfg, e))
         == if PropertyFree(s, cfg) then Ok(AfterPlace(s, cfg, e)) else Err(UniqueViolation)
  {
    AccessOutcome(s, cfg, order);
    PlayPlace(s, AfterAccess(s, cfg), cfg, e);
    PlayOnward(s, PermissionSteps(order) + AccessSteps(AllPermissions(s, cfg), StaffPermissions(s, cfg)),
               AfterAccess(s, cfg), PlaceSteps(cfg, e));
  }

  lemma SetupOutcome(s: Store, cfg: Config, e: Env, order: seq<string>)
    requires WellFormed(cfg) && Schedule(order, cfg) && CityChoice(s, e.city)
    ensures Play(s, SetupScript(s, cfg, e, order)) ==
            if PropertyFree(s, cfg) && UnitsFree(s, cfg) then Ok(AfterSetup(s, cfg, e)) else Err(UniqueViolation)
  {
    PlaceOutcome(s, cfg, e, order);
    PlayAppend(s, PermissionSteps(order) + AccessSteps(AllPermissions(s, cfg), StaffPermissions(s, cfg))
                  + PlaceSteps(cfg, e), UnitSteps(UnitEntries(cfg, e)));
    if PropertyFree(s, cfg) {
      PlayUnits(s, AfterPlace(s, cfg, e), cfg, e);
    }
  }

  lemma MediaStored(t: map<string, Media>, cfg: Config)
    ensures forall k :: k in MediaKeys(cfg) ==> k in Bulk(t, Index(cfg.images, MediaKey), MediaRow)
  {
    IndexKeys(cfg.images, MediaKey);
    forall k | k in MediaKeys(cfg)
      ensures k in Index(cfg.images, MediaKey)
    {
      var i :| 0 <= i < |cfg.images| && MediaKeys(cfg)[i] == k;
      assert cfg.images[i] in cfg.images;
    }
  }

  /** The store when the blocks are rebuilt. */
  ghost function AfterBlocks(s: Store, cfg: Config, e: Env): Store {
    var listing := Listing(TargetUnits(s, cfg, e), cfg);
    AfterSetup(s, cfg, e).(
      media := Bulk(s.media, Index(cfg.images, MediaKey), MediaRow),
      unitMedia := Elsewhere(s.unitMedia, listing) + RowSet(MediaRows(listing, MediaKeys(cfg))),
      blocks := Kept(s.blocks) + BlockRows(listing, cfg.templates))
  }

  lemma FixturesOutcome(s: Store, cfg: Config, e: Env)
    requires WellFormed(cfg)
    ensures var listing := Listing(TargetUnits(s, cfg, e), cfg);
            Play(AfterSetup(s, cfg, e), MediaSteps(cfg.images) + GallerySteps(listing, cfg) + BlockSteps(listing, cfg))
            == Ok(AfterBlocks(s, cfg, e))
  {
    var units := TargetUnits(s, cfg, e);
    var listing := Listing(units, cfg);
    var t0 := AfterSetup(s, cfg, e);
    var a, b, c := MediaSteps(cfg.images), GallerySteps(listing, cfg), BlockSteps(listing, cfg);
    ListingFacts(units, cfg);
    PlayMedia(t0, cfg);
    MediaStored(s.media, cfg);
    var t1 := t0.(media := Bulk(s.media, Index(cfg.images, MediaKey), MediaRow));
    PlayGallery(t1, listing, cfg);
    var t2 := t1.(unitMedia := Elsewhere(s.unitMedia, listing) + RowSet(MediaRows(listing, MediaKeys(cfg))));
    PlayBlocks(t2, listing, cfg);
    PlayOnward(t0, a, t1, b);
    PlayOnward(t0, a + b, t2, c);
  }

  ghost function AfterRates(s: Store, cfg: Config, e: Env): Store {
    AfterBlocks(s, cfg, e).(rates := TargetRates(s, cfg, e))
  }

  lemma AdminOutcome(s: Store, cfg: Config, e: Env)
    ensures Play(AfterRates(s, cfg, e), AdminSteps(cfg, e)) ==
            if PasswordOk(cfg) then Ok(Target(s, cfg, e)) else Err(PasswordTooShort)
  {
    RoleIndex();
    PlayAdmin(s, AfterRates(s, cfg, e), cfg, e);
  }

  lemma DerivedOutcome(s: Store, cfg: Config, e: Env)
    requires WellFormed(cfg)
    ensures var units := TargetUnits(s, cfg, e);
            Play(AfterSetup(s, cfg, e), DerivedScript(Listing(units, cfg), units, cfg, e)) ==
            if !MembersPriced(s, cfg) then Err(NumericOverflow)
            else if !PasswordOk(cfg) then Err(PasswordTooShort)
            else Ok(Target(s, cfg, e))
  {
    var units := TargetUnits(s, cfg, e);
    var listing := Listing(units, cfg);
    var t0, t3, t4 := AfterSetup(s, cfg, e), AfterBlocks(s, cfg, e), AfterRates(s, cfg, e);
    var fixtures := MediaSteps(cfg.images) + GallerySteps(listing, cfg) + BlockSteps(listing, cfg);
    var d, f := RateSteps(RateEntries(listing, units, cfg.days)), AdminSteps(cfg, e);
    FixturesOutcome(s, cfg, e);
    RatesOutcome(s, t3, cfg, e);
    PlayOnward(t0, fixtures, t3, d);
    if MembersPriced(s, cfg) {
      PlayOnward(t0, fixtures + d, t4, f);
      AdminOutcome(s, cfg, e);
    } else {
      PlayErr(t0, fixtures + d, f);
    }
  }

  /** The nested loop over units and dates is one bulk update of the product. */
  lemma RatesOutcome(s: Store, t: Store, cfg: Config, e: Env)
    requires WellFormed(cfg) && t.units == TargetUnits(s, cfg, e) && t.rates == s.rates
    ensures Play(t, RateSteps(RateEntries(Listing(t.units, cfg), t.units, cfg.days))) ==
            if MembersPriced(s, cfg) then Ok(t.(rates := TargetRates(s, cfg, e))) else Err(NumericOverflow)
  {
    var listing := Listing(t.units, cfg);
    var entries := RateEntries(listing, t.units, cfg.days);
    ListingFacts(t.units, cfg);
    forall r | r in entries
      ensures r.unit in t.units
    {
      var i, j := RateEntryOf(listing, t.units, cfg.days, r);
    }
    PlayRates(t, entries);
    RatesFitIff(s, cfg, e);
    RowsRepeatable();
    RateEntriesConsistent(listing, t.units, cfg.days);
    FoldIsBulk(t.rates, entries, RateKey, RateRow);
  }

  /** What a run does to any store whatever: it ends at the target exactly when the store is
      completable, and otherwise throws, never for a reference that does not resolve. */
  lemma RunOutcome(s: Store, cfg: Config, e: Env, order: seq<string>)
    requires WellFormed(cfg) && Schedule(order, cfg) && CityChoice(s, e.city)
    ensures Play(s, Script(s, cfg, e, order)) == Verdict(s, cfg, e)
    ensures Play(s, Script(s, cfg, e, order)).Ok? <==> Completable(s, cfg)
    ensures Play(s, Script(s, cfg, e, order)) != Err(ForeignKeyViolation)
  {
    var units := TargetUnits(s, cfg, e);
    SetupOutcome(s, cfg, e, order);
    DerivedOutcome(s, cfg, e);
    PlayAppend(s, SetupScript(s, cfg, e, order), DerivedScript(Listing(units, cfg), units, cfg, e));
  }
}
