/** The database as the seed sees it: mutable tables and the calls that change them.
    Each call either commits as a whole or throws and changes nothing. */
module Database {
  import opened Basics
  import opened Entities
  import opened SeedConfig
  import opened Columns
  import opened Ordering
  import opened Tables
  import opened Blocks
  import opened Steps
  import opened Plan

  class Client {
    var permissions: map<string, Permission>
    var roles: map<string, Role>
    var grants: set<(string, string)>
    var locations: map<int, Location>
    var properties: map<string, Property>
    var units: map<string, Unit>
    var media: map<string, Media>
    var unitMedia: set<UnitMedia>
    var blocks: seq<Block>
    var rates: map<(string, int), Rate>
    var users: map<string, User>
    var userRoles: set<(string, string)>

    /** The calls committed so far. */
    ghost var journal: seq<Step>

    ghost function Snapshot(): Store
      reads this
    {
      Store(permissions, roles, grants, locations, properties, units, media, unitMedia, blocks, rates, users, userRoles)
    }

    /** The call committed, or threw r's error and changed nothing. */
    twostate predicate Did(step: Step, new r: Outcome<DbError>)
      reads this
    {
      match r
      case Pass => Exec(old(Snapshot()), step) == Ok(Snapshot()) && journal == old(journal) + [step]
      case Fail(e) => Exec(old(Snapshot()), step) == Err(e) && Snapshot() == old(Snapshot()) && journal == old(journal)
    }

    method UpsertPermission(code: string)
      modifies this
      ensures Did(Step.UpsertPermission(code), Pass)
    {
      if code !in permissions {
        permissions := permissions[code := Permission(None)];
      }
      assert permissions == Upsert(old(permissions), code, code, PermissionRow);
      journal := journal + [Step.UpsertPermission(code)];
    }

    method UpsertRole(role: RoleEntry)
      modifies this
      ensures Did(Step.UpsertRole(role), Pass)
    {
      if role.code !in roles {
        roles := roles[role.code := Role(role.name)];
      }
      assert roles == Upsert(old(roles), role.code, role, RoleRow);
      journal := journal + [Step.UpsertRole(role)];
    }

    /** rolePermission.createMany with skipDuplicates. */
    method GrantAll(roleCode: string, codes: set<string>) returns (r: Outcome<DbError>)
      modifies this
      ensures Did(Step.GrantAll(roleCode, codes), r)
    {
      if roleCode !in roles || !(codes <= permissions.Keys) {
        return Fail(ForeignKeyViolation);
      }
      grants := grants + set p | p in codes :: (roleCode, p);
      journal := journal + [Step.GrantAll(roleCode, codes)];
      r := Pass;
    }

    /** location.findFirst: some root row with the city's slug. When several match, hint says
        which one the database happens to return. */
    method FindRootCity(hint: int) returns (found: Option<int>)
      requires CityChoice(Snapshot(), hint)
      ensures found == if Roots(locations) != {} then Some(hint) else None
      ensures match found case Some(l) => RootCity(locations, l) case None => !HasRootCity(locations)
    {
      RootsAreRootCities(locations);
      found := if hint in Roots(locations) then Some(hint) else None;
    }

    /** Going on with a city that was found: nothing is written. */
    ghost method FoundCity(id: int)
      requires Roots(locations) != {}
      modifies this`journal
      ensures Did(EnsureCity(id), Pass)
    {
      journal := journal + [EnsureCity(id)];
    }

    /** location.create, under a generated id. */
    method CreateCity(id: int)
      requires id !in locations && Roots(locations) == {}
      modifies this
      ensures Did(EnsureCity(id), Pass)
    {
      locations := locations[id := CITY_ROW];
      journal := journal + [EnsureCity(id)];
    }

    method UpsertProperty(entry: PropertyEntry) returns (r: Outcome<DbError>)
      modifies this
      ensures Did(Step.UpsertProperty(entry), r)
      ensures r == Fail(UniqueViolation) <==> !PropertyKeyFree(old(properties), entry.spec.slugEn)
    {
      if PROPERTY_SLUG in properties {
        properties := properties[PROPERTY_SLUG := properties[PROPERTY_SLUG].(
          name := entry.spec.name, descriptionVi := entry.spec.descriptionVi,
          descriptionEn := entry.spec.descriptionEn, status := ActiveProperty)];
      } else {
        if PropertyTaken(properties, entry.spec.slugEn) {
          return Fail(UniqueViolation);
        }
        if entry.city !in locations {
          return Fail(ForeignKeyViolation);
        }
        properties := properties[PROPERTY_SLUG := PropertyRow(entry, None)];
      }
      journal := journal + [Step.UpsertProperty(entry)];
      r := Pass;
    }

    method UpsertUnit(entry: UnitEntry) returns (r: Outcome<DbError>)
      modifies this
      ensures Did(Step.UpsertUnit(entry), r)
      ensures forall slug :: entry.spec.Demo? && Lowered(entry.spec.code, slug) ==>
                (r == Fail(UniqueViolation) <==> !UnitKeysFree(old(units), entry.spec.code, slug, slug))
      ensures entry.spec.Flagship? ==> (r == Fail(UniqueViolation) <==> !FlagshipFree(old(units), entry.spec))
    {
      var code := entry.spec.code;
      if code !in units {
        if Taken(units, entry.spec) {
          return Fail(UniqueViolation);
        }
        if PROPERTY_SLUG !in properties {
          return Fail(ForeignKeyViolation);
        }
      }
      units := units[code := UnitRow(entry, Get(units, code))];
      journal := journal + [Step.UpsertUnit(entry)];
      r := Pass;
    }

    /** unit.findMany for the property, orderBy publicCode: rows come in any physical order and
        are placed one by one. */
    method FindUnits(less: (string, string) -> bool) returns (codes: seq<string>)
      requires StrictTotal(less)
      ensures Listed(codes, units, less)
    {
      codes := [];
      var rest := Members(units);
      ghost var placed: set<string> := {};
      while rest != {}
        invariant placed + rest == Members(units) && placed !! rest
        invariant Lists(codes, placed, less)
        decreases rest
      {
        var c :| c in rest;
        InsertLists(c, codes, placed, less);
        codes := Insert(c, codes, less);
        placed, rest := placed + {c}, rest - {c};
      }
    }

    method UpsertMedia(image: ImageSpec)
      modifies this
      ensures Did(Step.UpsertMedia(image), Pass)
    {
      media := media[image.storageKey := MediaRow(image, Get(media, image.storageKey))];
      journal := journal + [Step.UpsertMedia(image)];
    }

    /** unitMedia.deleteMany where unitId in the list. */
    method DeleteUnitMedia(codes: seq<string>)
      modifies this
      ensures Did(ClearUnitMedia(codes), Pass)
    {
      unitMedia := set m | m in unitMedia && m.unit !in codes;
      journal := journal + [ClearUnitMedia(codes)];
    }

    /** unitMedia.createMany without skipDuplicates: one INSERT, all rows or none. */
    method CreateUnitMedia(rows: seq<UnitMedia>) returns (r: Outcome<DbError>)
      modifies this
      ensures Did(Step.CreateUnitMedia(rows), r)
      ensures r == Fail(UniqueViolation) <==> !RowsFit(old(unitMedia), rows)
    {
      if (exists a, b :: 0 <= a < b < |rows| && PlacementsClash(rows[a], rows[b]))
         || (exists n, m :: n in rows && m in unitMedia && PlacementsClash(n, m)) {
        return Fail(UniqueViolation);
      }
      if exists n :: n in rows && (n.unit !in units || n.media !in media) {
        return Fail(ForeignKeyViolation);
      }
      unitMedia := unitMedia + set n | n in rows;
      journal := journal + [Step.CreateUnitMedia(rows)];
      r := Pass;
    }

    /** availabilityBlock.deleteMany where the reason starts with the seed's prefix. */
    method DeleteSeededBlocks()
      modifies this
      ensures Did(ClearBlocks, Pass)
      ensures forall b :: multiset(blocks)[b] == if Prefixed(b) then 0 else multiset(old(blocks))[b]
    {
      forall b
        ensures multiset(Kept(blocks))[b] == if Prefixed(b) then 0 else multiset(blocks)[b]
      {
        KeptCount(blocks, b);
      }
      blocks := Kept(blocks);
      journal := journal + [ClearBlocks];
    }

    method CreateBlocks(rows: seq<Block>) returns (r: Outcome<DbError>)
      modifies this
      ensures Did(Step.CreateBlocks(rows), r)
    {
      if exists b :: b in rows && b.startDate >= b.endDate {
        return Fail(CheckViolation);
      }
      if exists b :: b in rows && b.unit !in units {
        return Fail(ForeignKeyViolation);
      }
      blocks := blocks + rows;
      journal := journal + [Step.CreateBlocks(rows)];
      r := Pass;
    }

    method UpsertRate(entry: RateEntry) returns (r: Outcome<DbError>)
      modifies this
      ensures Did(Step.UpsertRate(entry), r)
      ensures r == Fail(NumericOverflow) <==> !(-1_000_000_000_000 < entry.amount < 1_000_000_000_000)
    {
      if !Fits(entry.amount) {
        return Fail(NumericOverflow);
      }
      if (entry.unit, entry.date) !in rates && entry.unit !in units {
        return Fail(ForeignKeyViolation);
      }
      rates := rates[(entry.unit, entry.date) := Rate(entry.amount, Some(MIN_STAY))];
      journal := journal + [Step.UpsertRate(entry)];
      r := Pass;
    }

    /** The password check of the seed, then user.upsert. */
    method UpsertAdmin(admin: Credentials, hash: string) returns (r: Outcome<DbError>)
      modifies this
      ensures Did(Step.UpsertAdmin(admin, hash), r)
      ensures r == if |admin.password| < 8 then Fail(PasswordTooShort) else Pass
    {
      if |admin.password| < MIN_PASSWORD {
        return Fail(PasswordTooShort);
      }
      users := users[admin.email :=
        if admin.email in users then users[admin.email].(passwordHash := hash)
        else User(hash, "Admin", "Owner", true, 0)];
      journal := journal + [Step.UpsertAdmin(admin, hash)];
      r := Pass;
    }

    method GrantRole(email: string, roleCode: string) returns (r: Outcome<DbError>)
      modifies this
      ensures Did(Step.GrantRole(email, roleCode), r)
    {
      if email !in users || roleCode !in roles {
        return Fail(ForeignKeyViolation);
      }
      userRoles := userRoles + {(email, roleCode)};
      journal := journal + [Step.GrantRole(email, roleCode)];
      r := Pass;
    }
  }
}
