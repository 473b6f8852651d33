# Verification of the database seed

`prisma/seed.ts` brings an arbitrary PostgreSQL database to the state the demo
needs. It is re-runnable and not transactional: each awaited Prisma call commits
on its own, so a crash or a thrown error leaves a prefix of the run applied. This
project models the tables it touches, the constraints the schema puts on them and
the calls the seed makes, and proves what any run, any interrupted run and any
rerun does to any database.

`dafny verify dfyconfig.toml` checks everything.

## How the model is built

| file | content |
|---|---|
| `Basics.dfy`, `Ordering.dfy`, `Tables.dfy` | options and results; listings under a strict total order; keyed tables, upserts, half-applied tables |
| `Columns.dfy` | what a run is for and when it throws, in columns and literals, without calling the model's functions |
| `Entities.dfy` | the twelve tables as one `Store`, and the schema's foreign keys, unique keys and checks (`Integrity`) |
| `SeedConfig.dfy` | the literal arrays of the seed, generalised to a `Config`; the answers of clock, id generator and hash as an `Env` |
| `Rotation.dfy`, `Blocks.dfy` | cyclic media assignment; template blocks |
| `Steps.dfy` | the calls (`Step`), one call on a store (`Exec`), a list of calls that stops at the first throw (`Play`) |
| `Constraints.dfy` | the errors of the calls are exactly the constraints of the schema |
| `Plan.dfy` | `Script`, the calls a run makes; `Target`, the store it is for; `Completable` and `Verdict`, when it gets there |
| `Run.dfy` | the script computes the verdict |
| `Recovery.dfy`, `Restart.dfy` | stores between the start and the end of a run; histories of interrupted runs |
| `Effects.dfy` | every run, and every run after a history, ends as `Columns.dfy` says, and that leaves no choice |
| `Guarantees.dfy`, `Histories.dfy`, `Windows.dfy` | what holds after a run, after any history, and at each stopping point |
| `Database.dfy`, `Seeder.dfy` | the database as a mutable class, and `main` as methods with loops over it |
| `SeedData.dfy` | the seed's own literals are a well-formed `Config` |

Three descriptions of a run are kept apart and proved equal. `Target` is written table by table
as a function of the first store; `Columns.Ends` states the same outcome in column values and the
seed's literals, and `Effects.LeavesOnce` proves that it allows one store only; `Seeder.SeedAll`
is the imperative `main`, which reads back permissions and units as it goes and
passes them on. The link between the two is proved, not assumed.

Rows are stored under the unique key the seed finds them by, and refer to each other
by those keys; ids of stored rows never change, so a key stands for an id. Locations
keep their id: the unique key (parentId, slugVi) does not bind root rows, whose
parentId is NULL.

A call throws on a broken secondary unique key, an unresolved reference, an interval
that is not one, an amount beyond Decimal(12, 2), or a password under eight
characters. The last rule follows prisma/seed.ts:460; README.md:11 of the repository
asks for twelve.

## Assumptions

- Prisma's calls have their relational meaning, and one statement is all or nothing.
- Runs do not overlap. Within a run, the permission upserts commit in any order.
- A generated id is not in use. When several root rows match the city lookup the
  database may return any of them (`CityChoice`); no bound on their number is assumed.
- publicCode order is some strict total order (`StrictTotal`).
- Configured base prices are storable themselves; a multiplier is an exact percentage;
  the product is rounded half away from zero to the column's scale.
- The configuration and the admin variables are the same in every run of a history.

## Model

| member | source | states |
|---|---|---|
| Seeder.SeedAll | prisma/seed.ts:40-474 | main on any store: its calls are exactly the script computed from the first store, it reaches the declarative target if and only if the store is completable, it otherwise stops where the script first throws and with that error; in columns it ends as `Columns.Ends` says; it always frames, and what it leaves is one attempt of a history |
| Effects.RunEnds | prisma/seed.ts:40-474 | in columns and literals: every run on every store throws for a key in use, then for a price that overflows, then for a short password, each exactly when it should, and otherwise leaves the described rows in all twelve tables |
| Effects.LeavesOnce | prisma/seed.ts:40-474 | that description is complete: two stores it allows are equal up to the order of blocks |
| Effects.TargetLeaves | prisma/seed.ts:40-474 | the computed target meets the description, table by table |
| Effects.HistoryEnds | prisma/seed.ts:41-473 | after any history of interrupted runs, a run ends as described from the first store, with the stamps and the city of the attempts that made the rows |
| Run.RunOutcome | prisma/seed.ts:40-474 | for every store, clock and upsert order, the run is the verdict: the target, or a unique violation, numeric overflow or short password under exact conditions; never an unresolved reference |
| Run.SetupOutcome | prisma/seed.ts:41-328 | the first half ends with the property, city, roles, grants and units of the target, or with a unique violation, exactly when the keys are free |
| Run.DerivedOutcome | prisma/seed.ts:353-473 | the second half, driven by the listing of the updated units, ends at the target or at the first overflow or short password |
| Run.PermissionsConfluent | prisma/seed.ts:41-49 | every commit order of the concurrent upserts gives the same permission table: the old one plus the configured codes |
| Run.PlayUnits | prisma/seed.ts:127-328 | the flagship and demo upserts are one bulk update, and throw exactly when a unit to be created finds a secondary key in use |
| Run.UnitsStayFree | prisma/seed.ts:274-328 | creating earlier units of the list takes no key that a later one needs |
| Run.GalleryRowsFit | prisma/seed.ts:375-390 | after the delete, the rows to insert meet both unique keys of UnitMedia and resolve |
| Run.RatesOutcome | prisma/seed.ts:427-456 | the nested loop is one bulk update of the product of units and dates, or overflows exactly when a unit the seed does not price is too dear |
| Run.RatesFitIff | prisma/seed.ts:450-453 | every amount of the loop is storable if and only if the property's other units, as stored before the run, have prices that scale |
| Run.TargetPrices | prisma/seed.ts:314-325 | seeded units end at their configured base price; others are unchanged rows |
| Restart.CrashRestart | prisma/seed.ts:41-473 | after any number of runs stopped after any call, a complete run ends, or throws, exactly as one undisturbed run from the first store; that run gets, row by row, the stamps and the city of the attempt that created the row, and the last hash; a run is completable exactly when one on the first store was |
| Histories.ConvergesUpToStamps | prisma/seed.ts:41-473 | the same without naming the clock: every table equal to that of any undisturbed run, up to creation stamps, the id of a new city and the hash |
| Guarantees.RunsDifferOnlyInStamps | prisma/seed.ts:103-326 | two runs from one store that differ in clock, ids and salt differ in nothing else |
| Guarantees.Idempotent | prisma/seed.ts:103-456 | a second complete run, at any later time, throws nothing and changes nothing but the admin hash; publishedAt never moves |
| Recovery.StepKeepsBetween | prisma/seed.ts:41-473 | any call of a run, made on any store between the run's start and its target, leaves a store between them |
| Recovery.StoppedRun | prisma/seed.ts:41-473 | wherever a run is stopped, each keyed table is the first store's with part of the run applied; galleries of other units and unprefixed blocks are as before, while those of listed units and the seeded blocks are left to Windows.StoppedAtCall |
| Restart.ResumeTarget | prisma/seed.ts:41-473 | from any such store, the target is that of one run from the first store |
| Restart.ResumeVerdict | prisma/seed.ts:41-473 | and the run throws there exactly as it would have from the first store |
| Restart.ResumeUnits | prisma/seed.ts:288-326 | finishing a half-done unit table: rows the first run created keep its stamps, stored rows keep publishedAt |
| Restart.ResumeLocations | prisma/seed.ts:88-102 | a city made by an interrupted run is found, not made again |
| Windows.StoppedAtCall | prisma/seed.ts:375-426 | galleries and blocks at every stopping point: as before, missing after exactly one call each, then as in the target |
| Windows.RerunWindows | prisma/seed.ts:375-426 | once complete, a rerun interrupted anywhere leaves the database unchanged but for the hash and those two one-call windows |
| Histories.FrameOverHistory | prisma/seed.ts:103-472 | over any history: other rows, fields outside the update payloads, foreign galleries and rates are untouched; of blocks without the prefix SEED-SEP-2026 none is lost, added or moved; no grant or user role is revoked, a new grant is the owner's or staff's for a listed code, and only the administrator gains a role |
| Histories.BetweenFrame | prisma/seed.ts:103-472 | the same at every stopping point of one run |
| Histories.IntegrityOverHistory | prisma/schema.prisma:202-521 | over any history, references resolve, secondary unique keys and column checks hold |
| Constraints.ErrorsAreConstraints | prisma/schema.prisma:202-521 | on a sound database, every call that can break a constraint throws exactly when the rows it would write break one |
| Steps.ExecKeepsIntegrity | prisma/schema.prisma:202-521 | every committed call keeps them |
| Histories.OneCityOverHistory | prisma/seed.ts:88-111 | in columns: a stored row with parentId null and slug da-nang is kept and no location is added; without one at most one is made; and a property made by the seed stands in such a row |
| Guarantees.RoleGrants | prisma/seed.ts:50-87 | the owner ends with every permission in the store; staff gain exactly the listed codes; no grant is revoked and no other role gains one; also with the role codes written out |
| Guarantees.StaffBelowOwner | prisma/seed.ts:61-87 | over a sound store, staff end with no grant the owner lacks |
| Guarantees.NoStalePrices | prisma/seed.ts:427-456 | each unit whose property is panoma has, for each listed date, its stored base price times the multiplier, rounded, and a minimum stay of 2; all other rates are as before; seeded units have their configured base price |
| Guarantees.RatesAnyOrder | prisma/seed.ts:427-456 | any permutation of the unit and date iterations gives the same rates or the same failure |
| Guarantees.BlocksExact | prisma/seed.ts:391-426 | seeded blocks are one per template that has a unit, on the unit at its index, alternating in state, no leftovers, no unit twice; other blocks kept in order; and counted by the prefix itself |
| Blocks.FilterKeepsIndices | prisma/seed.ts:394-419 | the filter drops a suffix, so an index after it is the template's own |
| Blocks.BlockRowsExact | prisma/seed.ts:416-426 | block state depends on the template's position alone |
| Blocks.Rebuilt | prisma/seed.ts:391-393 | deleting by prefix and appending leaves the other blocks in place and exactly the new ones seeded; the count of each block with and without the prefix |
| Guarantees.GalleryExact | prisma/seed.ts:375-390 | the stored gallery of each listed unit is exactly its row of the rotation, image (u + i) mod n at position i; other galleries are as before |
| Guarantees.GalleryLatin | prisma/seed.ts:378-390 | stored galleries form a Latin square: each medium once per unit, and once per position in any n consecutive units |
| Guarantees.GalleryBalanced | prisma/seed.ts:378-390 | counted over the stored rows of the units whose property is panoma, at each position a medium is shown by floor(U/n) or ceil(U/n) units, and two media differ by at most one |
| Rotation.UsesExact | prisma/seed.ts:381 | the exact use count of the rotation for any U, n, position and medium |
| Rotation.RowIsPermutation | prisma/seed.ts:380-381 | one unit's images are a permutation of the media |
| Rotation.ColumnIsPermutation | prisma/seed.ts:379-381 | n consecutive units show every medium once at each position |
| Rotation.RowsNeverClash | prisma/schema.prisma:410-419 | the inserted rows never meet the keys (unitId, mediaId) and (unitId, sortOrder) |
| Guarantees.CatalogExact | prisma/seed.ts:127-326 | the whole final row of each seeded unit, as created or as stored with its update payload, demo slugs being the code with A to Z lowered; no other unit changes |
| Guarantees.PropertyExact | prisma/seed.ts:103-126 | the whole final row of the property; a stored one changes in name, descriptions and status only; a new one stands in a row with parentId null and slug da-nang |
| Guarantees.MediaExact | prisma/seed.ts:353-374 | the whole final row of each seeded medium; a stored one keeps its file size and captions |
| Guarantees.AdminExact | prisma/seed.ts:457-473 | exactly when both variables are set and not empty, the row under the lower-cased address is the stored one with the new hash, or a new Admin Owner; it alone gains a role, the owner's |
| Guarantees.AdminHoldsAll | prisma/seed.ts:457-473 | after a complete run that administrator holds the owner role, hence every permission, and the password has eight characters |
| Guarantees.CityExact | prisma/seed.ts:88-102 | with a root row of slug da-nang the locations stay; without one the whole new row is as written |
| Guarantees.PermissionsExact | prisma/seed.ts:41-49 | missing codes are created without a description; stored rows stay |
| Guarantees.RolesExact | prisma/seed.ts:51-60 | missing roles get their code and name; stored ones stay |
| Guarantees.ListingExact | prisma/seed.ts:329-332 | the listing is every unit whose property is panoma, in order; every unit the run creates is in it |
| Ordering.ListingUnique | prisma/seed.ts:329-332 | a set of codes has one ascending listing, so physical row order cannot matter |
| Database.Client.FindUnits | prisma/seed.ts:329-332 | from rows in any order, ascending, exactly the codes of units whose property is panoma |
| Database.Client.DeleteSeededBlocks | prisma/seed.ts:391-393 | removes every block whose reason starts with SEED-SEP-2026 and no other |
| Blocks.KeptCount | prisma/seed.ts:391-393 | the same for the specification, counted block by block |
| Tables.FoldIsBulk | prisma/seed.ts:427-456 | a loop of upserts is one bulk update |
| Tables.AnyOrder | prisma/seed.ts:41-49 | upserts of the same entries in any order give the same table |
| Tables.Resume | prisma/seed.ts:103-126 | finishing a half-done table gives the table of an undisturbed run |
| SeedConfig.Scaled | prisma/seed.ts:450-453 | the stored amount is base times multiplier to the nearest unit of the column's scale, halves away from zero |
| Basics.LowerExact | prisma/seed.ts:286 | lower-casing replaces each of A to Z, leaves no capital, and has one result |
| Database.Client.UpsertProperty | prisma/seed.ts:103-126 | commits the create or the update payload, or throws and changes nothing; a unique violation exactly when it creates and the slug is in use |
| Database.Client.UpsertUnit | prisma/seed.ts:288-326 | the same for a unit, with its three secondary keys and its property |
| Database.Client.CreateUnitMedia | prisma/seed.ts:378-390 | all rows or none; a unique violation exactly when two rows share a unit and a medium or position |
| Database.Client.UpsertAdmin | prisma/seed.ts:460-467 | throws on a short password before touching the user |
| Seeder.Setup | prisma/seed.ts:41-328 | makes the calls of the first half, with the permissions it read back |
| Seeder.Derive | prisma/seed.ts:353-473 | makes the calls of the second half from the units it read back |
| Seeder.SeedPermissions | prisma/seed.ts:41-49 | the upserts, in any commit order |
| Seeder.SeedPlace | prisma/seed.ts:88-126 | find or create the city, then the property that refers to it |
| Seeder.SeedUnits | prisma/seed.ts:127-328 | the flagship, then the loop over the demo units |
| Seeder.SeedMedia | prisma/seed.ts:353-374 | the media loop, which returns the items it pushed in order |
| Seeder.SeedRates | prisma/seed.ts:427-456 | the loop over units around the loop over dates |
| SeedData.LiteralsWellFormed | prisma/seed.ts:163-352 | the seed's own literals meet every condition the theorems put on a configuration |
| SeedData.SeedMayThrow | prisma/seed.ts:103-467 | the seed as written, on sound databases where every run throws: the slug tt-studio-02 in use, the property's English slug in use, a unit too dear to scale, and a short password; on an empty database nothing else throws |

## Left out

- The promise that the seed completes on every sound database is false; `Completable` is the exact condition and `SeedData.SeedMayThrow` has a counterexample for each way to throw.
- Booking, pricing quotes, availability search, payment, auth and SEO: separate services that the seed does not call.
- Two seed processes at once: the code does not guard against it.
- Generated ids of rows other than locations, and createdAt and updatedAt columns.
- Postgres isolation, network failures other than stopping after a call, and Prisma internals.
- Unit descriptions, coordinates, image links and alternative texts of the literals; property descriptions are kept.
- Argon2: the hash is an opaque string of the run.
- Floating-point rounding of `Number(basePrice) * multiplier`; the model multiplies exactly.
- Lower-casing outside ASCII, and the width of JavaScript strings.
- `seededUnits` is filled and never read, so it is not kept.
- The state of a block against the wording of its reason: the code derives the state from the index alone.
- Database.Client.FindRootCity: takes from the environment which of several matching rows is returned.
