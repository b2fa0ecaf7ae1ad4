/** The startup seeder: when the store has no category yet, it builds the
    fixture catalog (one category per fixture name, each owning the products
    authored for that name, every title passed through `StripCategoryPrefix`)
    and saves it in a single commit. */
module Seeding {
  import opened Common
  import opened Text
  import opened Schema
  import opened Fixture

  /** The text `StripCategoryPrefix` looks for: it drops a title up to and including its first occurrence. */
  const Separator := " - "

  /** Drops everything up to and including the first " - " of a title; a
      title without the separator is kept whole, and no result is longer
      than its title. */
  function StripCategoryPrefix(title: string): (r: string)
    ensures if Contains(title, Separator)
            then forall i: nat :: FirstOccurrence(title, Separator, i) ==> r == title[i + |Separator|..]
            else r == title
    ensures |r| <= |title|
  {
    IndexOfSpec(title, Separator);
    var idx := IndexOf(title, Separator);
    if idx >= 0 then title[idx + |Separator|..] else title
  }

  /** Stripping keeps a suffix of the title. */
  lemma StripCategoryPrefixIsSuffix(title: string)
    ensures var r := StripCategoryPrefix(title);
            r == title[|title| - |r|..]
  {
    IndexOfSpec(title, Separator);
  }

  /** A category name paired with the entries authored for it: one row of the seed table. */
  datatype CategorySeed = CategorySeed(name: string, entries: seq<Entry>)

  /** The seed table for `names`: row `i` pairs the i-th name with the
      products authored for it. */
  function SeedTable(names: seq<string>): (t: seq<CategorySeed>)
    ensures |t| == |names|
    ensures forall i :: 0 <= i < |names| ==>
      t[i].name == names[i] && t[i].entries == ProductsForCategory(names[i])
  {
    seq(|names|, i requires 0 <= i < |names| => CategorySeed(names[i], ProductsForCategory(names[i])))
  }

  /** The rows for one category's authored entries, in authored order, with
      consecutive keys from `firstId`. */
  function SeedProducts(entries: seq<Entry>, categoryId: int, firstId: int): (r: seq<Product>)
    ensures |r| == |entries|
    ensures forall j :: 0 <= j < |r| ==>
      && r[j].id == firstId + j
      && r[j].categoryId == categoryId
      && r[j].title == StripCategoryPrefix(entries[j].title)
      && r[j].price == entries[j].price
      && r[j].stock == entries[j].stock
      && r[j].description == Some(entries[j].description)
  {
    if |entries| == 0 then []
    else
      [Product(firstId, categoryId, StripCategoryPrefix(entries[0].title), entries[0].price, entries[0].stock, Some(entries[0].description))]
      + SeedProducts(entries[1..], categoryId, firstId + 1)
  }

  /** The authored entries of every row of the table, concatenated in table order. */
  function CatalogEntries(table: seq<CategorySeed>): seq<Entry> {
    if |table| == 0 then [] else table[0].entries + CatalogEntries(table[1..])
  }

  /** Where the entries of table row `i` start in the concatenated catalog. */
  function Offset(table: seq<CategorySeed>, i: nat): (o: nat)
    requires i <= |table|
    ensures o <= |CatalogEntries(table)|
    ensures i < |table| ==> o + |table[i].entries| <= |CatalogEntries(table)|
  {
    if i == 0 then 0 else |table[0].entries| + Offset(table[1..], i - 1)
  }

  /** The rows one seeding run inserts. */
  datatype Batch = Batch(categories: seq<Category>, products: seq<Product>)

  /** Builds one category row per table row, with consecutive keys from
      `firstCategoryId`, each followed by the rows for its authored entries,
      whose keys run consecutively from `firstProductId`. */
  function BuildCatalog(table: seq<CategorySeed>, firstCategoryId: int, firstProductId: int): (r: Batch)
    ensures |r.categories| == |table|
    ensures forall i :: 0 <= i < |table| ==>
      r.categories[i].id == firstCategoryId + i && r.categories[i].title == table[i].name
    ensures |r.products| == |CatalogEntries(table)|
  {
    if |table| == 0 then Batch([], [])
    else
      var rest := BuildCatalog(table[1..], firstCategoryId + 1, firstProductId + |table[0].entries|);
      Batch(
        [Category(firstCategoryId, table[0].name)] + rest.categories,
        SeedProducts(table[0].entries, firstCategoryId, firstProductId) + rest.products)
  }

  /** The position, in the table, of the row that authored the j-th catalog entry. */
  function OwnerIndex(table: seq<CategorySeed>, j: int): (i: nat)
    requires 0 <= j < |CatalogEntries(table)|
    ensures i < |table|
  {
    if j < |table[0].entries| then 0 else 1 + OwnerIndex(table[1..], j - |table[0].entries|)
  }

  /** The j-th product row of the catalog is made from the j-th authored entry
      of the table, carries the j-th issued key, and belongs to the category
      of the table row that authored the entry. */
  lemma {:induction false} CatalogProductRow(table: seq<CategorySeed>, firstCategoryId: int, firstProductId: int, j: int)
    requires 0 <= j < |CatalogEntries(table)|
    ensures var p := BuildCatalog(table, firstCategoryId, firstProductId).products[j];
            var e := CatalogEntries(table)[j];
            && p.id == firstProductId + j
            && p.categoryId == firstCategoryId + OwnerIndex(table, j)
            && p.title == StripCategoryPrefix(e.title)
            && p.price == e.price
            && p.stock == e.stock
            && p.description == Some(e.description)
  {
    if j >= |table[0].entries| {
      CatalogProductRow(table[1..], firstCategoryId + 1, firstProductId + |table[0].entries|, j - |table[0].entries|);
    }
  }

  /** The catalog's product rows carry consecutive keys, issued in catalog order. */
  lemma CatalogProductKeys(table: seq<CategorySeed>, firstCategoryId: int, firstProductId: int)
    ensures var ps := BuildCatalog(table, firstCategoryId, firstProductId).products;
            forall j :: 0 <= j < |ps| ==> ps[j].id == firstProductId + j
  {
    var ps := BuildCatalog(table, firstCategoryId, firstProductId).products;
    forall j | 0 <= j < |ps|
      ensures ps[j].id == firstProductId + j
    {
      CatalogProductRow(table, firstCategoryId, firstProductId, j);
    }
  }

  /** Table row `i` authored exactly the catalog entries from its offset on,
      as many as it lists, and they are its entries in authored order. */
  lemma {:induction false} OwnerIndexBlock(table: seq<CategorySeed>, i: nat, j: int)
    requires i < |table| && 0 <= j < |CatalogEntries(table)|
    ensures OwnerIndex(table, j) == i <==> Offset(table, i) <= j < Offset(table, i) + |table[i].entries|
    ensures OwnerIndex(table, j) == i ==> CatalogEntries(table)[j] == table[i].entries[j - Offset(table, i)]
  {
    if i > 0 && j >= |table[0].entries| {
      OwnerIndexBlock(table[1..], i - 1, j - |table[0].entries|);
    }
  }

  /** When every row authors `n` entries, row `i` starts at `n * i` and the
      catalog holds `n` entries per row. */
  lemma {:induction false} UniformOffsets(table: seq<CategorySeed>, n: nat)
    requires forall i :: 0 <= i < |table| ==> |table[i].entries| == n
    ensures |CatalogEntries(table)| == n * |table|
    ensures forall i :: 0 <= i <= |table| ==> Offset(table, i) == n * i
  {
    if |table| > 0 {
      UniformOffsets(table[1..], n);
      forall i | 0 <= i <= |table|
        ensures Offset(table, i) == n * i
      {
        if i > 0 {
          assert Offset(table[1..], i - 1) == n * (i - 1);
        }
      }
    }
  }

  /** Category `i` of the catalog owns exactly the product rows in its
      block: those from the row's offset on, as many as it authors. */
  lemma CatalogOwnership(table: seq<CategorySeed>, firstCategoryId: int, firstProductId: int, i: nat, j: int)
    requires i < |table| && 0 <= j < |CatalogEntries(table)|
    ensures var p := BuildCatalog(table, firstCategoryId, firstProductId).products[j];
            p.categoryId == firstCategoryId + i <==> Offset(table, i) <= j < Offset(table, i) + |table[i].entries|
  {
    CatalogProductRow(table, firstCategoryId, firstProductId, j);
    OwnerIndexBlock(table, i, j);
  }

  /** The k-th product row in the block of table row `i` is made from that
      row's k-th entry, carries the key issued at its position, and belongs
      to the row's category. */
  lemma CatalogBlock(table: seq<CategorySeed>, firstCategoryId: int, firstProductId: int, i: nat, k: nat)
    requires i < |table| && k < |table[i].entries|
    ensures var j := Offset(table, i) + k;
            var p := BuildCatalog(table, firstCategoryId, firstProductId).products[j];
            var e := table[i].entries[k];
            && p.categoryId == firstCategoryId + i
            && p.id == firstProductId + j
            && p.title == StripCategoryPrefix(e.title)
            && p.price == e.price
            && p.stock == e.stock
            && p.description == Some(e.description)
  {
    var j := Offset(table, i) + k;
    OwnerIndexBlock(table, i, j);
    assert OwnerIndex(table, j) == i;
    assert CatalogEntries(table)[j] == table[i].entries[k];
    CatalogProductRow(table, firstCategoryId, firstProductId, j);
    var p := BuildCatalog(table, firstCategoryId, firstProductId).products[j];
    assert p.categoryId == firstCategoryId + i;
  }

  /** An authored entry fits the product table's columns. */
  predicate EntryFits(e: Entry) {
    ProductColumnsFit(e.title, Some(e.description), e.price, e.stock)
  }

  /** A table row fits the schema on its own: its name fits the category
      title column, its entries fit the product columns, and no two of its
      entries are stored under the same title. */
  predicate RowFits(row: CategorySeed) {
    && |row.name| <= CategoryTitleMaxLength
    && (forall k :: 0 <= k < |row.entries| ==> EntryFits(row.entries[k]))
    && (forall x, y :: 0 <= x < y < |row.entries| ==>
          StripCategoryPrefix(row.entries[x].title) != StripCategoryPrefix(row.entries[y].title))
  }

  /** Two table rows do not collide: different names, and no title stored
      for one equals a title stored for the other. */
  predicate RowsDisjoint(a: CategorySeed, b: CategorySeed) {
    && a.name != b.name
    && (forall x, y :: 0 <= x < |a.entries| && 0 <= y < |b.entries| ==>
          StripCategoryPrefix(a.entries[x].title) != StripCategoryPrefix(b.entries[y].title))
  }

  /** A seed table whose catalog satisfies every constraint of the schema. */
  predicate TableFits(table: seq<CategorySeed>) {
    && (forall i :: 0 <= i < |table| ==> RowFits(table[i]))
    && (forall i1, i2 :: 0 <= i1 < i2 < |table| ==> RowsDisjoint(table[i1], table[i2]))
  }

  /** The catalog's category rows have distinct keys and distinct titles that fit their column. */
  lemma CatalogCategoriesValid(table: seq<CategorySeed>, firstCategoryId: int, firstProductId: int)
    requires TableFits(table)
    ensures var cs := BuildCatalog(table, firstCategoryId, firstProductId).categories;
            && UniqueBy(cs, (c: Category) => c.id)
            && UniqueBy(cs, (c: Category) => c.title)
            && (forall c :: c in cs ==> CategoryFits(c) && firstCategoryId <= c.id < firstCategoryId + |table|)
  {
    var cs := BuildCatalog(table, firstCategoryId, firstProductId).categories;
    forall i1, i2 | 0 <= i1 < i2 < |cs|
      ensures cs[i1].title != cs[i2].title
    {
      assert RowsDisjoint(table[i1], table[i2]);
    }
    forall c | c in cs
      ensures CategoryFits(c) && firstCategoryId <= c.id < firstCategoryId + |table|
    {
      var i :| 0 <= i < |cs| && cs[i] == c;
      assert RowFits(table[i]);
    }
  }

  /** Every catalog product row fits the product columns and refers to a catalog category. */
  lemma CatalogProductsFit(table: seq<CategorySeed>, firstCategoryId: int, firstProductId: int, j: int)
    requires TableFits(table)
    requires 0 <= j < |CatalogEntries(table)|
    ensures var p := BuildCatalog(table, firstCategoryId, firstProductId).products[j];
            && ProductFits(p)
            && p.id == firstProductId + j
            && HasCategory(BuildCatalog(table, firstCategoryId, firstProductId).categories, p.categoryId)
  {
    var b := BuildCatalog(table, firstCategoryId, firstProductId);
    var i := OwnerIndex(table, j);
    CatalogProductRow(table, firstCategoryId, firstProductId, j);
    OwnerIndexBlock(table, i, j);
    assert RowFits(table[i]);
    assert EntryFits(table[i].entries[j - Offset(table, i)]);
    assert b.categories[i].id == b.products[j].categoryId;
  }

  /** No two catalog product rows are stored under the same title. */
  lemma CatalogTitlesUnique(table: seq<CategorySeed>, firstCategoryId: int, firstProductId: int, j1: int, j2: int)
    requires TableFits(table)
    requires 0 <= j1 < j2 < |CatalogEntries(table)|
    ensures BuildCatalog(table, firstCategoryId, firstProductId).products[j1].title
         != BuildCatalog(table, firstCategoryId, firstProductId).products[j2].title
  {
    var i1 := OwnerIndex(table, j1);
    var i2 := OwnerIndex(table, j2);
    CatalogProductRow(table, firstCategoryId, firstProductId, j1);
    CatalogProductRow(table, firstCategoryId, firstProductId, j2);
    OwnerIndexBlock(table, i1, j1);
    OwnerIndexBlock(table, i2, j2);
    var x := j1 - Offset(table, i1);
    var y := j2 - Offset(table, i2);
    if i1 == i2 {
      assert RowFits(table[i1]);
      assert x < y;
    } else if i1 < i2 {
      assert RowsDisjoint(table[i1], table[i2]);
    } else {
      assert RowsDisjoint(table[i2], table[i1]);
    }
  }

  /** A valid store without categories holds no products either: every
      product would need a category to refer to. */
  lemma NoCategoriesNoProducts(s: Store)
    requires Valid(s) && |s.categories| == 0
    ensures s.products == []
  {
    if |s.products| > 0 {
      ProductsNeedCategories(s);
    }
  }

  /** A store with a product whose foreign key holds has a category. */
  lemma ProductsNeedCategories(s: Store)
    requires ForeignKeysHold(s) && |s.products| > 0
    ensures |s.categories| > 0
  {
    assert s.products[0] in s.products;
  }

  /** The catalog's product rows have distinct keys and distinct titles,
      fit their columns, and each refers to a catalog category. */
  lemma CatalogProductsValid(table: seq<CategorySeed>, firstCategoryId: int, firstProductId: int)
    requires TableFits(table)
    ensures var b := BuildCatalog(table, firstCategoryId, firstProductId);
            && UniqueBy(b.products, (p: Product) => p.id)
            && UniqueBy(b.products, (p: Product) => p.title)
            && (forall p :: p in b.products ==>
                  ProductFits(p) && HasCategory(b.categories, p.categoryId)
                  && firstProductId <= p.id < firstProductId + |b.products|)
  {
    var b := BuildCatalog(table, firstCategoryId, firstProductId);
    forall j | 0 <= j < |b.products|
      ensures ProductFits(b.products[j]) && b.products[j].id == firstProductId + j
      ensures HasCategory(b.categories, b.products[j].categoryId)
    {
      CatalogProductsFit(table, firstCategoryId, firstProductId, j);
    }
    forall j1, j2 | 0 <= j1 < j2 < |b.products|
      ensures b.products[j1].title != b.products[j2].title
    {
      CatalogTitlesUnique(table, firstCategoryId, firstProductId, j1, j2);
    }
  }

  /** Inserting the catalog of a fitting table into a valid store that has
      no categories yields a valid store. */
  lemma CatalogCommitValid(s: Store, table: seq<CategorySeed>)
    requires Valid(s) && |s.categories| == 0
    requires TableFits(table)
    ensures var b := BuildCatalog(table, s.nextCategoryId, s.nextProductId);
            Valid(Append(s, b.categories, b.products))
  {
    var b := BuildCatalog(table, s.nextCategoryId, s.nextProductId);
    var t := Append(s, b.categories, b.products);
    NoCategoriesNoProducts(s);
    assert t.categories == b.categories;
    assert t.products == b.products;
    CatalogCategoriesValid(table, s.nextCategoryId, s.nextProductId);
    CatalogProductsValid(table, s.nextCategoryId, s.nextProductId);
  }

  /** The seeder with its fixture as a parameter. A store that already has a
      category is taken as seeded and returned as it is; otherwise the
      catalog of `table` is committed atomically, and a failed commit leaves
      the store untouched. */
  function SeedWith(s: Store, table: seq<CategorySeed>): (r: Result<Store, CommitError>)
    ensures |s.categories| > 0 ==> r == Success(s)
    ensures r.Success? && Valid(s) ==> Valid(r.value)
    ensures |s.categories| == 0 && r.Success? ==> |r.value.categories| == |table|
  {
    if |s.categories| > 0 then Success(s)
    else
      var batch := BuildCatalog(table, s.nextCategoryId, s.nextProductId);
      Commit(s, batch.categories, batch.products)
  }

  /** With a non-empty table, seeding its own output changes nothing. */
  lemma SeedWithIdempotent(s: Store, table: seq<CategorySeed>)
    requires |table| > 0
    requires SeedWith(s, table).Success?
    ensures SeedWith(SeedWith(s, table).value, table) == SeedWith(s, table)
  {
  }

  /** The startup seeder with the authored fixture. */
  function SeedData(s: Store): (r: Result<Store, CommitError>)
    ensures |s.categories| > 0 ==> r == Success(s)
    ensures r.Success? && Valid(s) ==> Valid(r.value)
  {
    SeedWith(s, SeedTable(CategoryNames))
  }

  /** Running the seeder on its own output changes nothing, so seeding twice
      is the same as seeding once. */
  lemma SeedDataIdempotent(s: Store)
    requires SeedData(s).Success?
    ensures SeedData(SeedData(s).value) == SeedData(s)
  {
    SeedWithIdempotent(s, SeedTable(CategoryNames));
  }

  /** Seeding a valid store that has no categories with a fitting table
      commits exactly the table's catalog. */
  lemma SeedWithFreshStore(s: Store, table: seq<CategorySeed>)
    requires Valid(s) && |s.categories| == 0
    requires TableFits(table)
    ensures var b := BuildCatalog(table, s.nextCategoryId, s.nextProductId);
            SeedWith(s, table) == Success(Append(s, b.categories, b.products))
  {
    CatalogCommitValid(s, table);
  }
}
