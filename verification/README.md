# Catalog store seeder: a Dafny model

This project models the start-up seeder of the BLazorCRUD catalog
application, together with the relational schema it seeds.

The store has two tables:
- **categories**, each with a unique title;
- **products**, each with a unique title, a price, a stock count and an
  optional description, and a foreign key to its category that deletes in
  cascade.

When the application starts, the seeder runs once:
- If the store already has any category, it does nothing.
- Otherwise it builds a fixed catalog: ten categories, each owning the five
  products authored for its name. It passes every authored title through
  `StripCategoryPrefix`, which drops everything up to and including the
  first `" - "`; no authored title contains one. It saves the whole batch in
  one commit.

The model is functional. A store is a value: two row sequences plus two key
counters, which stand for the database's identity generators. Seeding is a
function from a store to a `Result`. The commit is all-or-nothing: the new
store is kept when every schema constraint holds of it, and otherwise the
commit fails and the store is left as it was. The declared column lengths
and the price precision count among those constraints: the model assumes a
database that enforces them (see "## Left out").

Files:
- `common.dfy` (module `Common`): `Option`, `Result`, the `UniqueBy` predicate and a specified `Filter`.
- `text.dfy` (module `Text`): ordinal substring search (`IndexOf`) with its specification.
- `schema.dfy` (module `Schema`): the entities, the `Valid` predicate the schema declares, the commit and the cascading category delete.
- `fixture.dfy` (module `Fixture`): the authored table.
  - Category names, titles, stock counts and descriptions are copied verbatim.
  - Prices are exact integers in units of 1/10000 (`decimal(16,4)`), so 599.99 is `5999900`.
- `seeding.dfy` (module `Seeding`): `StripCategoryPrefix`, the catalog builder, the guarded seeder, and its generic properties over any seed table.
- `fixture_facts.dfy` (module `FixtureFacts`): the same properties proved for the authored table by evaluating it.
  - The seeder's claim that the authored product titles are globally unique is proved here, along with every other constraint the schema puts on the authored catalog.

`StripCategoryPrefix` drops everything up to and including the first
`" - "` of a title. None of the fifty authored titles contains `" - "`, so on
the fixture it keeps every title unchanged (`FixtureFacts.PlainTitleKept`,
`FixtureFacts.FixtureCatalog`).

`Schema.Valid` is the schema as one predicate: unique keys and titles in
both tables, the column limits, the foreign key, and keys issued by the
identity generators. The `Schema.CommitRejects…` lemmas state each
declared key, title, length, range and foreign-key constraint on its own, as
a batch the commit refuses. The last part of `Valid`, keys issued by the
identity generators, is the model's account of store-generated keys rather
than a declared constraint, and has no such lemma.

## Model

| member | source | states |
|---|---|---|
| Text.IndexOfFromSpec | Crud/Extensions/DbSeedExtensions.cs:72 | searching from a position returns -1 exactly when the separator occurs nowhere at or after it, and otherwise returns the first position at or after it where the separator occurs |
| Text.IndexOfSpec | Crud/Extensions/DbSeedExtensions.cs:72 | the ordinal `IndexOf` returns -1 if and only if the title does not contain the separator, and otherwise returns the position of its first occurrence |
| Text.IndexOf | Crud/Extensions/DbSeedExtensions.cs:72 | the ordinal search answers -1 or a position at which the whole separator fits inside the title |
| Seeding.StripCategoryPrefix | Crud/Extensions/DbSeedExtensions.cs:69-74 | a title without `" - "` is returned unchanged; a title with it yields exactly the text after its first occurrence; the result is never longer than the title |
| Seeding.StripCategoryPrefixIsSuffix | Crud/Extensions/DbSeedExtensions.cs:73 | the stripped title is always a suffix of the title |
| Seeding.SeedTable | Crud/Extensions/DbSeedExtensions.cs:40-49 | one seed row per listed name, in order: row `i` pairs the i-th name with exactly the products authored for that name |
| Seeding.SeedProducts | Crud/Extensions/DbSeedExtensions.cs:50-60 | one product row per authored entry, in authored order, each linked to its category, titled by the stripped entry title, with price, stock and description copied, and with consecutive fresh keys |
| Seeding.BuildCatalog | Crud/Extensions/DbSeedExtensions.cs:38-63 | one category per seed row, in row order and titled by the row's name, and as many product rows as the rows author in total |
| Seeding.CatalogProductRow | Crud/Extensions/DbSeedExtensions.cs:49-59 | the j-th product row is made from the j-th authored entry of the catalog, with the stripped title and copied fields, and belongs to the category of the row that authored it |
| Seeding.OwnerIndexBlock | Crud/Extensions/DbSeedExtensions.cs:40-63 | a seed row authored exactly the catalog entries in its block, and they are its entries in authored order |
| Seeding.CatalogProductKeys | Crud/Extensions/DbSeedExtensions.cs:50-66 | the catalog's product rows carry consecutive keys from the product identity generator, in catalog order |
| Seeding.CatalogOwnership | Crud/Extensions/DbSeedExtensions.cs:49-60 | category `i` owns exactly the product rows in its block: a product belongs to it if and only if the product lies in that block |
| Seeding.CatalogBlock | Crud/Extensions/DbSeedExtensions.cs:50-59 | the k-th product in the block of row `i` is made from that row's k-th entry and belongs to that row's category |
| Seeding.CatalogCategoriesValid | Crud/Database/AppDbContext.cs:28-33 | the catalog's categories have distinct keys, distinct titles of at most 64 characters, and keys below the identity counter |
| Seeding.CatalogProductsFit | Crud/Database/AppDbContext.cs:19-24 | every catalog product fits the title, description, price and stock columns and refers to an existing catalog category |
| Seeding.CatalogTitlesUnique | Crud/Database/AppDbContext.cs:18 | two different catalog products never carry the same title, whether they come from one category or from two |
| Seeding.CatalogProductsValid | Crud/Database/AppDbContext.cs:15-26 | the catalog's products satisfy the product table's unique indexes, column limits and foreign key |
| Seeding.NoCategoriesNoProducts | Crud/Database/AppDbContext.cs:22-24 | a valid store without categories holds no products |
| Seeding.ProductsNeedCategories | Crud/Database/AppDbContext.cs:22-24 | a store with a product whose foreign key holds has a category |
| Seeding.CatalogCommitValid | Crud/Extensions/DbSeedExtensions.cs:48-66 | committing the catalog of a fitting seed table to a valid store without categories yields a valid store |
| Seeding.SeedWith | Crud/Extensions/DbSeedExtensions.cs:9-67 | a store that has a category is returned as it is; a successful run keeps the store valid; a run on a store without categories creates one category per seed row |
| Seeding.SeedWithIdempotent | Crud/Extensions/DbSeedExtensions.cs:18-22 | with a non-empty table, seeding the seeder's own output changes nothing |
| Seeding.SeedData | Crud/Extensions/DbSeedExtensions.cs:9-67 | the seeder with the authored fixture leaves an already seeded store unchanged and never turns a valid store into an invalid one |
| Seeding.SeedDataIdempotent | Crud/Extensions/DbSeedExtensions.cs:18-22 | seeding twice is the same as seeding once |
| Seeding.SeedWithFreshStore | Crud/Extensions/DbSeedExtensions.cs:38-66 | on a valid store without categories and with a fitting table, the seeder commits exactly the table's catalog, appended to the store |
| Schema.Commit | Crud/Extensions/DbSeedExtensions.cs:65-66 | a commit either stores the whole batch after the existing rows and leaves a valid store, or fails, and it fails only when the batch would break a constraint |
| Schema.EmptyStoreValid | Crud/Extensions/DbSeedExtensions.cs:15-16 | a freshly created, empty database satisfies every constraint of the schema |
| Schema.CommitRejectsDuplicateCategoryKey | Crud/Database/AppDbContext.cs:30 | a commit that would store two categories under one primary key fails |
| Schema.CommitRejectsDuplicateProductKey | Crud/Database/AppDbContext.cs:17 | a commit that would store two products under one primary key fails |
| Schema.CommitRejectsDuplicateCategoryTitle | Crud/Database/AppDbContext.cs:31 | a commit that would store two categories under one title fails |
| Schema.CommitRejectsDuplicateProductTitle | Crud/Database/AppDbContext.cs:18 | a commit that would store two products under one title fails |
| Schema.CommitRejectsLongCategoryTitle | Crud/Database/AppDbContext.cs:32 | a commit that would store a category title longer than the declared 64 characters fails, on a database that enforces declared lengths |
| Schema.CommitRejectsUnfitProduct | Crud/Database/AppDbContext.cs:19-21 | a commit that would store a product whose title is over the declared 128 characters, whose description is over 512, or whose price is outside `decimal(16,4)` fails, on a database that enforces declared lengths and precision; the stock bound is C#'s 32-bit `int` |
| Schema.CommitRejectsDanglingProduct | Crud/Database/AppDbContext.cs:22-24 | a commit that would store a product whose category key names no category fails |
| Schema.DeleteCategory | Crud/Database/AppDbContext.cs:22-25 | the deleted category is gone, and so is every product of it; every other category and product is kept with its multiplicity; the key counters do not move |
| Schema.DeleteCategoryKeepsRows | Crud/Database/AppDbContext.cs:22-25 | every row left after the delete was in the store before it, and none of them is the deleted category or one of its products |
| Schema.DeleteCategoryKeepsForeignKeys | Crud/Database/AppDbContext.cs:22-24 | after the cascade, every remaining product still refers to an existing category |
| Schema.DeleteCategoryPreservesValid | Crud/Database/AppDbContext.cs:11-34 | deleting a category from a valid store leaves a valid store |
| Schema.DeleteCategoryRemovesExactlyItsProducts | Crud/Database/AppDbContext.cs:22-25 | a product survives the delete if and only if it was in the store and belonged to another category |
| FixtureFacts.PlainHasNoSeparator | Crud/Extensions/DbSeedExtensions.cs:71-72 | a title in which no space is followed by a dash does not contain the separator |
| FixtureFacts.PlainTitleKept | Crud/Extensions/DbSeedExtensions.cs:72-73 | such a title is stored unchanged by the stripper |
| FixtureFacts.FixtureBlocksOk | Crud/Extensions/DbSeedExtensions.cs:76-161 | every authored block holds five entries that fit the product columns, have plain titles and have five distinct titles, and every category name fits the category title column |
| FixtureFacts.FixtureBlocksApart | Crud/Extensions/DbSeedExtensions.cs:76-161 | no title is authored for two categories, and the category names are pairwise distinct |
| FixtureFacts.FixtureTableFits | Crud/Extensions/DbSeedExtensions.cs:76-161 | the authored table satisfies every constraint the schema puts on a seed table |
| FixtureFacts.SeedTableIsFixture | Crud/Extensions/DbSeedExtensions.cs:24-49 | the table the seeder builds from its category names is the authored fixture, name by name |
| FixtureFacts.FixtureFits | Crud/Extensions/DbSeedExtensions.cs:48 | the seeder's table fits the schema: product titles are globally unique after stripping, category titles are unique, and every length and range limit holds |
| FixtureFacts.FixtureTableIsAuthored | Crud/Extensions/DbSeedExtensions.cs:24-49 | row `i` of the fixture table is the i-th category name with exactly the products authored for it |
| Fixture.ProductsForCategory | Crud/Extensions/DbSeedExtensions.cs:76-161 | a listed category name has five authored products, and any other name has none |
| FixtureFacts.CategoryNamesListed | Crud/Extensions/DbSeedExtensions.cs:24-36 | the seeder lists ten category names, pairwise distinct, each at most 64 characters |
| FixtureFacts.FixtureCategories | Crud/Extensions/DbSeedExtensions.cs:24-47 | the fixture catalog holds exactly ten categories, titled by the listed names in the listed order, with consecutive keys |
| FixtureFacts.FixtureCatalog | Crud/Extensions/DbSeedExtensions.cs:49-59 | the fixture catalog holds fifty products; product `k` of category `i` belongs to it and is made from the k-th entry authored for its name, with its title unchanged and price, stock and description copied |
| FixtureFacts.FixtureOwnership | Crud/Extensions/DbSeedExtensions.cs:49-60 | category `i` of the fixture catalog owns exactly five products, those at positions `5i` to `5i+4` |
| FixtureFacts.SeedFreshStore | Crud/Extensions/DbSeedExtensions.cs:9-67 | seeding a valid store that has no category succeeds, stores exactly the fixture catalog, and leaves a valid store |
| FixtureFacts.SeedEmptyStore | Crud/Extensions/DbSeedExtensions.cs:9-67 | seeding a freshly created database succeeds and leaves a valid store with the ten listed categories, keyed 1 to 10 in order, and fifty products, keyed 1 to 50 in order |

## Left out

- Service scope creation, the context factory and `await using` disposal (lines 11-13 of the seeder) are framework plumbing. The model takes the store as a value.
- `EnsureCreatedAsync` (line 16) is not modelled as an operation. `Schema.EmptyStore` stands for a freshly created database (`Schema.EmptyStoreValid`, `FixtureFacts.SeedEmptyStore`), and every seeding lemma takes any valid store.
- Asynchrony and the database round trips are not modelled. `AnyAsync` becomes the test `|s.categories| > 0`. `AddRangeAsync` with `SaveChangesAsync` becomes `Schema.Commit`.
- Several application instances can race between the check and the insert. That is a concurrency concern and is not modelled.
- When a constraint fails, the database raises an exception; the model returns `Failure(ConstraintViolation)` and keeps the store. Exception types and messages are not modelled.
- Entity Framework's change tracking and the navigation properties (`Product.Category`, `Category.Products`) are not modelled. A product refers to its category by `categoryId` alone.
- Store-generated keys are modelled as two counters that hand out consecutive values. The concrete values a database would choose, and exhaustion of the 32-bit key range, are not modelled.
- String lengths count Dafny characters. .NET counts UTF-16 code units. The two agree on the fixture, which is plain ASCII.
- Uniqueness of titles is exact, ordinal string equality. A database collation that folds case or accents would reject more pairs, and that is not modelled.
- "Required" titles are always present in the model, because a Dafny string cannot be null. An empty title is allowed, as the schema allows it.
- The column limits (`HasMaxLength`, `decimal(16,4)`) are schema metadata; Entity Framework does not check them when saving. The model assumes a database that refuses a row breaking them, as SQL Server does. A provider that ignores declared lengths and precision, such as SQLite, would store the row; the source does not show which provider the application uses. No seeding result depends on this, because the authored catalog fits every limit (`FixtureFacts.FixtureFits`).
- The stock bound in `Schema.ProductColumnsFit` is not a declared constraint. It stands for C#'s 32-bit `int` (`Crud/Database/Entities/Product.cs:17`), so the program cannot build an out-of-range stock at all.
- Prices are exact scaled integers bounded by `decimal(16,4)`. Rounding of values with more than four decimals by the database is not modelled. The fixture has at most two.
- The generic seeding lemmas (`Seeding.SeedWith` and the lemmas after it) take the seed table as a parameter. The authored table is plugged in by `Seeding.SeedData`, and its own facts live in `FixtureFacts`.
