/** The errors of the calls against the constraints of the schema: on a sound database a call throws
    exactly when the rows it would write break a constraint. */
module Constraints {
  import opened Basics
  import opened Entities
  import opened Tables
  import opened Steps

  lemma UnitRowsClash(units: map<string, Unit>, e: UnitEntry)
    requires e.spec.code !in units && UnitKeysUnique(units)
    ensures UnitKeysUnique(Upsert(units, e.spec.code, e, UnitRow)) <==> !Taken(units, e.spec)
  {
    var u := Upsert(units, e.spec.code, e, UnitRow);
    if Taken(units, e.spec) {
      var c :| c in units && (units[c].internalCode == e.spec.InternalCode()
                              || units[c].slugVi == e.spec.SlugVi() || units[c].slugEn == e.spec.SlugEn());
      assert c in u && e.spec.code in u && UnitsClash(u[c], u[e.spec.code]);
    }
  }

  lemma UnitConstraints(s: Store, e: UnitEntry)
    requires Integrity(s)
    ensures Exec(s, UpsertUnit(e)).Ok? <==> Integrity(s.(units := Upsert(s.units, e.spec.code, e, UnitRow)))
  {
    var t := s.(units := Upsert(s.units, e.spec.code, e, UnitRow));
    if Exec(s, UpsertUnit(e)).Ok? {
      ExecKeepsIntegrity(s, UpsertUnit(e));
    } else {
      UnitRowsClash(s.units, e);
      assert e.spec.code in t.units && t.units[e.spec.code].property == "panoma";
      assert !UnitKeysUnique(t.units) || !UnitsResolve(t.units, t.properties.Keys);
    }
  }

  lemma PropertyConstraints(s: Store, e: PropertyEntry)
    requires Integrity(s)
    ensures Exec(s, UpsertProperty(e)).Ok?
            <==> Integrity(s.(properties := Upsert(s.properties, "panoma", e, PropertyRow)))
  {
    var t := s.(properties := Upsert(s.properties, "panoma", e, PropertyRow));
    if Exec(s, UpsertProperty(e)).Ok? {
      ExecKeepsIntegrity(s, UpsertProperty(e));
    } else if PropertyTaken(s.properties, e.spec.slugEn) {
      var p :| p in s.properties && s.properties[p].slugEn == e.spec.slugEn;
      assert p in t.properties && t.properties[p].slugEn == t.properties["panoma"].slugEn;
      assert !PropertyKeysUnique(t.properties);
    } else {
      assert "panoma" in t.properties && t.properties["panoma"].location == e.city;
      assert !PropertiesResolve(t.properties, t.locations.Keys);
    }
  }

  lemma GrantConstraints(s: Store, r: string, codes: set<string>)
    requires Integrity(s) && codes != {}
    ensures Exec(s, GrantAll(r, codes)).Ok? <==> Integrity(s.(grants := s.grants + set p | p in codes :: (r, p)))
  {
    var t := s.(grants := s.grants + set p | p in codes :: (r, p));
    if Exec(s, GrantAll(r, codes)).Ok? {
      ExecKeepsIntegrity(s, GrantAll(r, codes));
    } else {
      var p :| p in codes && (r !in s.roles || p !in s.permissions);
      assert (r, p) in t.grants;
      assert !PairsResolve(t.grants, t.roles.Keys, t.permissions.Keys);
    }
  }

  /** Rows to insert are new rows: they differ from each other and from the stored ones. */
  lemma PlacementConstraints(s: Store, rows: seq<UnitMedia>)
    requires Integrity(s) && Distinct(rows) && forall r :: r in rows ==> r !in s.unitMedia
    ensures Exec(s, CreateUnitMedia(rows)).Ok? <==> Integrity(s.(unitMedia := s.unitMedia + RowSet(rows)))
  {
    var t := s.(unitMedia := s.unitMedia + RowSet(rows));
    if Exec(s, CreateUnitMedia(rows)).Ok? {
      ExecKeepsIntegrity(s, CreateUnitMedia(rows));
    } else if !Insertable(rows, s.unitMedia) {
      RowsClash(s.unitMedia, rows);
    } else {
      assert !PlacementsResolve(t.unitMedia, t.units.Keys, t.media.Keys);
    }
  }

  lemma RowsClash(table: set<UnitMedia>, rows: seq<UnitMedia>)
    requires Distinct(rows) && (forall r :: r in rows ==> r !in table) && !Insertable(rows, table)
    ensures !PlacementKeysUnique(table + RowSet(rows))
  {
    var u := table + RowSet(rows);
    if exists a, b :: 0 <= a < b < |rows| && PlacementsClash(rows[a], rows[b]) {
      var a, b :| 0 <= a < b < |rows| && PlacementsClash(rows[a], rows[b]);
      assert rows[a] in u && rows[b] in u;
    } else {
      var r, m :| r in rows && m in table && PlacementsClash(r, m);
      assert r in u && m in u;
    }
  }

  lemma BlockConstraints(s: Store, rows: seq<Block>)
    requires Integrity(s)
    ensures Exec(s, CreateBlocks(rows)).Ok? <==> Integrity(s.(blocks := s.blocks + rows))
  {
    var t := s.(blocks := s.blocks + rows);
    if Exec(s, CreateBlocks(rows)).Ok? {
      ExecKeepsIntegrity(s, CreateBlocks(rows));
    } else {
      assert forall b :: b in rows ==> b in t.blocks;
      assert !IntervalsValid(t.blocks) || !BlocksResolve(t.blocks, t.units.Keys);
    }
  }

  lemma RateConstraints(s: Store, r: RateEntry)
    requires Integrity(s)
    ensures Exec(s, UpsertRate(r)).Ok? <==> Integrity(s.(rates := Upsert(s.rates, RateKey(r), r, RateRow)))
  {
    var t := s.(rates := Upsert(s.rates, RateKey(r), r, RateRow));
    if Exec(s, UpsertRate(r)).Ok? {
      ExecKeepsIntegrity(s, UpsertRate(r));
    } else {
      assert RateKey(r) in t.rates && t.rates[RateKey(r)].amount == r.amount;
      assert !AmountsFit(t.rates) || !RatesResolve(t.rates, t.units.Keys);
    }
  }

  lemma UserRoleConstraints(s: Store, email: string, r: string)
    requires Integrity(s)
    ensures Exec(s, GrantRole(email, r)).Ok? <==> Integrity(s.(userRoles := s.userRoles + {(email, r)}))
  {
    var t := s.(userRoles := s.userRoles + {(email, r)});
    if Exec(s, GrantRole(email, r)).Ok? {
      ExecKeepsIntegrity(s, GrantRole(email, r));
    } else {
      assert (email, r) in t.userRoles;
      assert !PairsResolve(t.userRoles, t.users.Keys, t.roles.Keys);
    }
  }

  /** On a sound database a call throws a constraint error exactly when what it would write is unsound. */
  ghost predicate ThrowsIffUnsound(s: Store, step: Step) {
    match step
    case GrantAll(r, codes) =>
      codes != {} ==>
        (Exec(s, step).Ok? <==> Integrity(s.(grants := s.grants + set p | p in codes :: (r, p))))
    case UpsertProperty(e) =>
      Exec(s, step).Ok? <==> Integrity(s.(properties := Upsert(s.properties, "panoma", e, PropertyRow)))
    case UpsertUnit(e) =>
      Exec(s, step).Ok? <==> Integrity(s.(units := Upsert(s.units, e.spec.code, e, UnitRow)))
    case CreateUnitMedia(rows) =>
      Distinct(rows) && (forall r :: r in rows ==> r !in s.unitMedia) ==>
        (Exec(s, step).Ok? <==> Integrity(s.(unitMedia := s.unitMedia + RowSet(rows))))
    case CreateBlocks(rows) =>
      Exec(s, step).Ok? <==> Integrity(s.(blocks := s.blocks + rows))
    case UpsertRate(r) =>
      Exec(s, step).Ok? <==> Integrity(s.(rates := Upsert(s.rates, RateKey(r), r, RateRow)))
    case GrantRole(email, r) =>
      Exec(s, step).Ok? <==> Integrity(s.(userRoles := s.userRoles + {(email, r)}))
    case _ => true
  }

  lemma ErrorsAreConstraints(s: Store, step: Step)
    requires Integrity(s)
    ensures ThrowsIffUnsound(s, step)
  {
    match step
    case GrantAll(r, codes) => if codes != {} { GrantConstraints(s, r, codes); }
    case UpsertProperty(e) => PropertyConstraints(s, e);
    case UpsertUnit(e) => UnitConstraints(s, e);
    case CreateUnitMedia(rows) =>
      if Distinct(rows) && forall r :: r in rows ==> r !in s.unitMedia { PlacementConstraints(s, rows); }
    case CreateBlocks(rows) => BlockConstraints(s, rows);
    case UpsertRate(r) => RateConstraints(s, r);
    case GrantRole(email, r) => UserRoleConstraints(s, email, r);
    case _ =>
  }
}
