/** Where a run is not atomic. Only galleries and seeded blocks are ever taken down before they
    are put back; each is missing for exactly one stopping point of the run. */
module Windows {
  import opened Basics
  import opened Entities
  import opened SeedConfig
  import opened Tables
  import opened Rotation
  import opened Blocks
  import opened Steps
  import opened Plan
  import opened Run
  import opened Recovery
  import opened Guarantees

  predicate OnGallery(step: Step) {
    step.ClearUnitMedia? || step.CreateUnitMedia?
  }

  predicate OnBlocks(step: Step) {
    step.ClearBlocks? || step.CreateBlocks?
  }

  ghost predicate Quiet(steps: seq<Step>) {
    forall step :: step in steps ==> !OnGallery(step) && !OnBlocks(step)
  }

  lemma {:induction false} QuietPermissions(order: seq<string>)
    ensures Quiet(PermissionSteps(order))
  {
    if order != [] {
      QuietPermissions(order[..|order| - 1]);
    }
  }

  lemma {:induction false} QuietUnits(entries: seq<UnitEntry>)
    ensures Quiet(UnitSteps(entries))
  {
    if entries != [] {
      QuietUnits(entries[..|entries| - 1]);
    }
  }

  lemma {:induction false} QuietMedia(images: seq<ImageSpec>)
    ensures Quiet(MediaSteps(images))
  {
    if images != [] {
      QuietMedia(images[..|images| - 1]);
    }
  }

  lemma {:induction false} QuietRates(entries: seq<RateEntry>)
    ensures Quiet(RateSteps(entries))
  {
    if entries != [] {
      QuietRates(entries[..|entries| - 1]);
    }
  }

  lemma ExecSpares(s: Store, step: Step)
    requires Exec(s, step).Ok?
    ensures !OnGallery(step) ==> Exec(s, step).value.unitMedia == s.unitMedia
    ensures !OnBlocks(step) ==> Exec(s, step).value.blocks == s.blocks
  {
  }

  lemma {:induction false} PlaySparesGallery(s: Store, steps: seq<Step>)
    requires Play(s, steps).Ok? && forall step :: step in steps ==> !OnGallery(step)
    ensures Play(s, steps).value.unitMedia == s.unitMedia
  {
    if steps != [] {
      var n := |steps| - 1;
      PlaySparesGallery(s, steps[..n]);
      ExecSpares(Play(s, steps[..n]).value, steps[n]);
    }
  }

  lemma {:induction false} PlaySparesBlocks(s: Store, steps: seq<Step>)
    requires Play(s, steps).Ok? && forall step :: step in steps ==> !OnBlocks(step)
    ensures Play(s, steps).value.blocks == s.blocks
  {
    if steps != [] {
      var n := |steps| - 1;
      PlaySparesBlocks(s, steps[..n]);
      ExecSpares(Play(s, steps[..n]).value, steps[n]);
    }
  }

  /** A prefix that ends inside b plays a first. */
  lemma PlayThrough(s: Store, a: seq<Step>, b: seq<Step>, k: nat)
    requires |a| <= k <= |a| + |b| && Play(s, (a + b)[..k]).Ok?
    ensures Play(s, a).Ok? && Play(s, (a + b)[..k]) == Play(Play(s, a).value, b[..k - |a|])
  {
    assert (a + b)[..k] == a + b[..k - |a|];
    PlayAppend(s, a, b[..k - |a|]);
  }

  /** Play of a two-call block cut at any point. */
  lemma PlayPair(s: Store, a: Step, b: Step)
    ensures Play(s, [a, b][..0]) == Ok(s)
    ensures Play(s, [a, b][..1]) == Exec(s, a)
    ensures Play(s, [a, b][..2]) == match Exec(s, a) case Err(e) => Err(e) case Ok(m) => Exec(m, b)
  {
  }

  /** Calls before the gallery is taken down. */
  ghost function Before(s: Store, cfg: Config, e: Env, order: seq<string>): seq<Step> {
    SetupScript(s, cfg, e, order) + MediaSteps(cfg.images)
  }

  /** Calls after the blocks are put back. */
  ghost function Rest(s: Store, cfg: Config, e: Env): seq<Step> {
    var units := TargetUnits(s, cfg, e);
    RateSteps(RateEntries(Listing(units, cfg), units, cfg.days)) + AdminSteps(cfg, e)
  }

  lemma ScriptParts(s: Store, cfg: Config, e: Env, order: seq<string>)
    ensures var listing := Listing(TargetUnits(s, cfg, e), cfg);
            Script(s, cfg, e, order)
            == Before(s, cfg, e, order) + (GallerySteps(listing, cfg) + (BlockSteps(listing, cfg) + Rest(s, cfg, e)))
  {
  }

  lemma QuietBefore(s: Store, cfg: Config, e: Env, order: seq<string>)
    ensures Quiet(Before(s, cfg, e, order))
  {
    QuietPermissions(order);
    QuietUnits(UnitEntries(cfg, e));
    QuietMedia(cfg.images);
  }

  lemma QuietRest(s: Store, cfg: Config, e: Env)
    ensures Quiet(Rest(s, cfg, e))
  {
    var units := TargetUnits(s, cfg, e);
    QuietRates(RateEntries(Listing(units, cfg), units, cfg.days));
  }

  /** A run of a, then the two calls p and q, then c, cut after k calls. */
  lemma CutPair(s: Store, a: seq<Step>, p: Step, q: Step, c: seq<Step>, k: nat)
    requires k <= |a + ([p, q] + c)| && Play(s, (a + ([p, q] + c))[..k]).Ok?
    ensures var cut := Play(s, (a + ([p, q] + c))[..k]);
      && (k <= |a| ==> cut == Play(s, a[..k]))
      && (k > |a| ==> Play(s, a).Ok?)
      && (k == |a| + 1 ==> cut == Exec(Play(s, a).value, p))
      && (k > |a| + 1 ==>
            && Exec(Play(s, a).value, p).Ok? && Exec(Exec(Play(s, a).value, p).value, q).Ok?
            && cut == Play(Exec(Exec(Play(s, a).value, p).value, q).value, c[..k - |a| - 2]))
  {
    if k <= |a| {
      assert (a + ([p, q] + c))[..k] == a[..k];
    } else {
      PlayThrough(s, a, [p, q] + c, k);
      var m := Play(s, a).value;
      PlayPair(m, p, q);
      if k == |a| + 1 {
        assert ([p, q] + c)[..1] == [p, q][..1];
      } else {
        PlayThrough(m, [p, q], c, k - |a|);
        assert [p, q][..2] == [p, q];
      }
    }
  }

  lemma CutGallery(s: Store, a: seq<Step>, listing: seq<string>, rows: seq<UnitMedia>, c: seq<Step>, k: nat)
    requires Quiet(a) && forall step :: step in c ==> !OnGallery(step)
    requires k <= |a + ([ClearUnitMedia(listing), CreateUnitMedia(rows)] + c)|
    requires Play(s, (a + ([ClearUnitMedia(listing), CreateUnitMedia(rows)] + c))[..k]).Ok?
    ensures var t := Play(s, (a + ([ClearUnitMedia(listing), CreateUnitMedia(rows)] + c))[..k]).value;
            t.unitMedia == if k <= |a| then s.unitMedia
                           else if k == |a| + 1 then Elsewhere(s.unitMedia, listing)
                           else Elsewhere(s.unitMedia, listing) + RowSet(rows)
  {
    var p, q := ClearUnitMedia(listing), CreateUnitMedia(rows);
    CutPair(s, a, p, q, c, k);
    if k <= |a| {
      PlaySparesGallery(s, a[..k]);
    } else {
      PlaySparesGallery(s, a);
      if k > |a| + 1 {
        PlaySparesGallery(Exec(Exec(Play(s, a).value, p).value, q).value, c[..k - |a| - 2]);
      }
    }
  }

  lemma CutBlocks(s: Store, a: seq<Step>, rows: seq<Block>, c: seq<Step>, k: nat)
    requires Quiet(c) && forall step :: step in a ==> !OnBlocks(step)
    requires k <= |a + ([ClearBlocks, CreateBlocks(rows)] + c)|
    requires Play(s, (a + ([ClearBlocks, CreateBlocks(rows)] + c))[..k]).Ok?
    ensures var t := Play(s, (a + ([ClearBlocks, CreateBlocks(rows)] + c))[..k]).value;
            t.blocks == if k <= |a| then s.blocks
                        else if k == |a| + 1 then Kept(s.blocks)
                        else Kept(s.blocks) + rows
  {
    var p, q := ClearBlocks, CreateBlocks(rows);
    CutPair(s, a, p, q, c, k);
    if k <= |a| {
      PlaySparesBlocks(s, a[..k]);
    } else {
      PlaySparesBlocks(s, a);
      if k > |a| + 1 {
        PlaySparesBlocks(Exec(Exec(Play(s, a).value, p).value, q).value, c[..k - |a| - 2]);
      }
    }
  }

  /** Galleries and blocks at every stopping point of a run, call by call. */
  lemma StoppedAtCall(s: Store, cfg: Config, e: Env, order: seq<string>, k: nat)
    requires k <= |Script(s, cfg, e, order)| && Play(s, Script(s, cfg, e, order)[..k]).Ok?
    ensures var t := Play(s, Script(s, cfg, e, order)[..k]).value;
            var listing := Listing(TargetUnits(s, cfg, e), cfg); var n := |Before(s, cfg, e, order)|;
      && t.unitMedia == (if k <= n then s.unitMedia
                         else if k == n + 1 then Elsewhere(s.unitMedia, listing)
                         else Target(s, cfg, e).unitMedia)
      && t.blocks == (if k <= n + 2 then s.blocks
                      else if k == n + 3 then Kept(s.blocks)
                      else Target(s, cfg, e).blocks)
  {
    var listing := Listing(TargetUnits(s, cfg, e), cfg);
    var a, g := Before(s, cfg, e, order), GallerySteps(listing, cfg);
    var b, c := BlockSteps(listing, cfg), Rest(s, cfg, e);
    ScriptParts(s, cfg, e, order);
    QuietBefore(s, cfg, e, order);
    QuietRest(s, cfg, e);
    CutGallery(s, a, listing, MediaRows(listing, MediaKeys(cfg)), b + c, k);
    assert Script(s, cfg, e, order) == (a + g) + (b + c);
    CutBlocks(s, a + g, BlockRows(listing, cfg.templates), c, k);
  }

  // ----- Interrupting a rerun -----

  lemma SettledTable<K, E, V>(t: map<K, V>, u: map<K, V>, entries: map<K, E>, row: (E, Option<V>) -> V)
    requires Partial(t, u, entries, row) && Bulk(t, entries, row) == t
    ensures u == t
  {
  }

  /** A store that a run would leave as it is, but for the administrator's hash. */
  ghost predicate Settled(t: Store, cfg: Config, e: Env) {
    Target(t, cfg, e) == t.(users := TargetUsers(t, cfg, e))
  }

  lemma SettledAccess(t: Store, u: Store, cfg: Config, e: Env)
    requires Settled(t, cfg, e) && AccessBetween(t, u.permissions, u.roles, u.grants, cfg)
    ensures u.permissions == t.permissions && u.roles == t.roles && u.grants == t.grants
  {
    SettledTable(t.permissions, u.permissions, Index(cfg.permissions, PermissionKey), PermissionRow);
    SettledTable(t.roles, u.roles, Index(ROLE_ENTRIES, RoleKey), RoleRow);
  }

  lemma SettledPlace(t: Store, u: Store, cfg: Config, e: Env)
    requires Settled(t, cfg, e) && PlaceBetween(t, u.locations, u.properties, cfg, e)
    ensures u.locations == t.locations && u.properties == t.properties
  {
    SettledTable(t.properties, u.properties, PropertyEntries(cfg, e), PropertyRow);
  }

  lemma SettledUnits(t: Store, u: Store, cfg: Config, e: Env)
    requires Settled(t, cfg, e) && UnitsBetween(t, u.units, cfg, e)
    ensures u.units == t.units
  {
    SettledTable(t.units, u.units, Index(UnitEntries(cfg, e), UnitKey), UnitRow);
  }

  lemma SettledDerived(t: Store, u: Store, cfg: Config, e: Env)
    requires Settled(t, cfg, e) && DerivedBetween(t, u.media, u.unitMedia, u.blocks, u.rates, cfg, e)
    ensures u.media == t.media && u.rates == t.rates
  {
    var units := TargetUnits(t, cfg, e);
    SettledTable(t.media, u.media, Index(cfg.images, MediaKey), MediaRow);
    SettledTable(t.rates, u.rates, Index(RateEntries(Listing(units, cfg), units, cfg.days), RateKey), RateRow);
  }

  lemma SettledAdmin(t: Store, u: Store, cfg: Config, e: Env)
    requires Settled(t, cfg, e) && AdminBetween(t, u.users, u.userRoles, cfg, e)
    ensures u.userRoles == t.userRoles && (u.users == t.users || u.users == TargetUsers(t, cfg, e))
  {
  }

  lemma SettledBetween(t: Store, u: Store, cfg: Config, e: Env)
    requires Settled(t, cfg, e) && Between(t, u, cfg, e)
    ensures u == t.(unitMedia := u.unitMedia, blocks := u.blocks, users := u.users)
    ensures u.users == t.users || u.users == TargetUsers(t, cfg, e)
  {
    SettledAccess(t, u, cfg, e);
    SettledPlace(t, u, cfg, e);
    SettledUnits(t, u, cfg, e);
    SettledDerived(t, u, cfg, e);
    SettledAdmin(t, u, cfg, e);
  }

  /** Once a run has completed, a rerun that is interrupted anywhere leaves the database as it was,
      but for the administrator's hash and, at two stopping points, the galleries of the listed
      units or the seeded blocks, which are then missing. */
  lemma RerunWindows(s: Store, cfg: Config, first: Env, second: Env, order: seq<string>, k: nat)
    requires WellFormed(cfg) && CityChoice(s, first.city) && Completable(s, cfg) && Schedule(order, cfg)
    requires CityChoice(Target(s, cfg, first), second.city)
    requires var t := Target(s, cfg, first);
             k <= |Script(t, cfg, second, order)| && Play(t, Script(t, cfg, second, order)[..k]).Ok?
    ensures var t := Target(s, cfg, first); var u := Play(t, Script(t, cfg, second, order)[..k]).value;
            var listing := Listing(t.units, cfg); var n := |Before(t, cfg, second, order)|;
      && (u.users == t.users || u.users == TargetUsers(t, cfg, second))
      && u == t.(users := u.users,
                 unitMedia := if k == n + 1 then Elsewhere(t.unitMedia, listing) else t.unitMedia,
                 blocks := if k == n + 3 then Kept(t.blocks) else t.blocks)
  {
    var t := Target(s, cfg, first);
    var u := Play(t, Script(t, cfg, second, order)[..k]).value;
    Idempotent(s, cfg, first, second, order);
    RunOutcome(t, cfg, second, order);
    assert Settled(t, cfg, second);
    StoppedRun(t, cfg, second, order, k);
    SettledBetween(t, u, cfg, second);
    StoppedAtCall(t, cfg, second, order, k);
  }
}
