/** Facts about the authored fixture, established by evaluating it: every
    name and entry fits the schema, no authored title carries the " - "
    separator (so the seeder stores every title unchanged), and no title is
    authored twice, within a category or across two. */
module FixtureFacts {
  import opened Common
  import opened Text
  import opened Schema
  import opened Fixture
  import opened Seeding

  /** Position `k` of `t` holds a space immediately followed by a dash. */
  predicate SpaceDashAt(t: string, k: int)
    requires 0 <= k < |t| - 1
  {
    t[k] == ' ' && t[k + 1] == '-'
  }

  /** No space is immediately followed by a dash, so the separator cannot occur. */
  predicate Plain(t: string) {
    forall k :: 0 <= k < |t| - 1 ==> !SpaceDashAt(t, k)
  }

  /** A title without the separator is stored unchanged. */
  lemma PlainTitleKept(t: string)
    requires Plain(t)
    ensures StripCategoryPrefix(t) == t
  {
    PlainHasNoSeparator(t);
  }

  /** A plain title contains no separator. */
  lemma PlainHasNoSeparator(t: string)
    requires Plain(t)
    ensures !Contains(t, Separator)
  {
    forall i: nat | i <= |t|
      ensures !OccursAt(t, Separator, i)
    {
      if i + |Separator| <= |t| {
        assert t[i..i + |Separator|][0] == t[i] && t[i..i + |Separator|][1] == t[i + 1];
        assert !SpaceDashAt(t, i);
      }
    }
  }

  /** What one authored block satisfies: five entries, each fitting the
      product columns with a plain title, under five distinct titles. */
  predicate BlockOk(es: seq<Entry>) {
    && |es| == 5
    && (forall k :: 0 <= k < |es| ==> EntryFits(es[k]) && Plain(es[k].title))
    && (forall x, y :: 0 <= x < y < |es| ==> es[x].title != es[y].title)
  }

  /** No title authored in one block is authored in the other. */
  predicate BlocksApart(a: seq<Entry>, b: seq<Entry>) {
    forall x, y :: 0 <= x < |a| && 0 <= y < |b| ==> a[x].title != b[y].title
  }

  /** A well-formed block under a short name is a row that fits the schema. */
  lemma BlockRowFits(name: string, es: seq<Entry>)
    requires |name| <= CategoryTitleMaxLength && BlockOk(es)
    ensures RowFits(CategorySeed(name, es))
  {
    forall x, y | 0 <= x < y < |es|
      ensures StripCategoryPrefix(es[x].title) != StripCategoryPrefix(es[y].title)
    {
      PlainTitleKept(es[x].title);
      PlainTitleKept(es[y].title);
    }
  }

  /** Two well-formed, apart blocks under different names are disjoint rows. */
  lemma BlockRowsDisjoint(na: string, a: seq<Entry>, nb: string, b: seq<Entry>)
    requires na != nb && BlockOk(a) && BlockOk(b) && BlocksApart(a, b)
    ensures RowsDisjoint(CategorySeed(na, a), CategorySeed(nb, b))
  {
    forall x, y | 0 <= x < |a| && 0 <= y < |b|
      ensures StripCategoryPrefix(a[x].title) != StripCategoryPrefix(b[y].title)
    {
      PlainTitleKept(a[x].title);
      PlainTitleKept(b[y].title);
    }
  }

  // The facts about the literal fixture are stated one title, and one pair
  // of blocks, at a time: a single proof that unfolds the whole table at
  // once exceeds the solver's resource bound, while each small lemma below
  // inspects only the text it names. `<Block>Title<k>` says the k-th title
  // of a block is plain, `<Block>Ok` gathers a block's five titles, and
  // `<A>Apart<B>` says two blocks share no title; `FixtureBlocksOk` and
  // `FixtureBlocksApart` gather them for the whole table.
  lemma ElectronicsTitle0() ensures |Electronics| == 5 && Plain(Electronics[0].title) { assert Plain("55\" 4K Smart TV"); }
  lemma ElectronicsTitle1() ensures |Electronics| == 5 && Plain(Electronics[1].title) { assert Plain("Wireless Noise-Cancelling Headphones"); }
  lemma ElectronicsTitle2() ensures |Electronics| == 5 && Plain(Electronics[2].title) { assert Plain("14\" Ultrabook Laptop"); }
  lemma ElectronicsTitle3() ensures |Electronics| == 5 && Plain(Electronics[3].title) { assert Plain("Bluetooth Speaker"); }
  lemma ElectronicsTitle4() ensures |Electronics| == 5 && Plain(Electronics[4].title) { assert Plain("Smartphone 128GB"); }

  /** The block authored for "Electronics" is well formed. */
  lemma ElectronicsOk()
    ensures BlockOk(Electronics)
  {
    ElectronicsTitle0(); ElectronicsTitle1(); ElectronicsTitle2(); ElectronicsTitle3(); ElectronicsTitle4();
  }

  lemma BooksTitle0() ensures |Books| == 5 && Plain(Books[0].title) { assert Plain("Clean Code"); }
  lemma BooksTitle1() ensures |Books| == 5 && Plain(Books[1].title) { assert Plain("The Pragmatic Programmer"); }
  lemma BooksTitle2() ensures |Books| == 5 && Plain(Books[2].title) { assert Plain("Design Patterns"); }
  lemma BooksTitle3() ensures |Books| == 5 && Plain(Books[3].title) { assert Plain("Refactoring"); }
  lemma BooksTitle4() ensures |Books| == 5 && Plain(Books[4].title) { assert Plain("Domain-Driven Design"); }

  /** The block authored for "Books" is well formed. */
  lemma BooksOk()
    ensures BlockOk(Books)
  {
    BooksTitle0(); BooksTitle1(); BooksTitle2(); BooksTitle3(); BooksTitle4();
  }

  lemma ClothingTitle0() ensures |Clothing| == 5 && Plain(Clothing[0].title) { assert Plain("Men's Cotton T-Shirt"); }
  lemma ClothingTitle1() ensures |Clothing| == 5 && Plain(Clothing[1].title) { assert Plain("Women's Denim Jacket"); }
  lemma ClothingTitle2() ensures |Clothing| == 5 && Plain(Clothing[2].title) { assert Plain("Running Shoes"); }
  lemma ClothingTitle3() ensures |Clothing| == 5 && Plain(Clothing[3].title) { assert Plain("Wool Sweater"); }
  lemma ClothingTitle4() ensures |Clothing| == 5 && Plain(Clothing[4].title) { assert Plain("Baseball Cap"); }

  /** The block authored for "Clothing" is well formed. */
  lemma ClothingOk()
    ensures BlockOk(Clothing)
  {
    ClothingTitle0(); ClothingTitle1(); ClothingTitle2(); ClothingTitle3(); ClothingTitle4();
  }

  lemma HomeKitchenTitle0() ensures |HomeKitchen| == 5 && Plain(HomeKitchen[0].title) { assert Plain("Air Fryer 5 Qt"); }
  lemma HomeKitchenTitle1() ensures |HomeKitchen| == 5 && Plain(HomeKitchen[1].title) { assert Plain("Stainless Steel Cookware Set"); }
  lemma HomeKitchenTitle2() ensures |HomeKitchen| == 5 && Plain(HomeKitchen[2].title) { assert Plain("Memory Foam Pillow"); }
  lemma HomeKitchenTitle3() ensures |HomeKitchen| == 5 && Plain(HomeKitchen[3].title) { assert Plain("Robot Vacuum"); }
  lemma HomeKitchenTitle4() ensures |HomeKitchen| == 5 && Plain(HomeKitchen[4].title) { assert Plain("Electric Kettle 1.7L"); }

  /** The block authored for "Home & Kitchen" is well formed. */
  lemma HomeKitchenOk()
    ensures BlockOk(HomeKitchen)
  {
    HomeKitchenTitle0(); HomeKitchenTitle1(); HomeKitchenTitle2(); HomeKitchenTitle3(); HomeKitchenTitle4();
  }

  lemma SportsOutdoorsTitle0() ensures |SportsOutdoors| == 5 && Plain(SportsOutdoors[0].title) { assert Plain("Yoga Mat"); }
  lemma SportsOutdoorsTitle1() ensures |SportsOutdoors| == 5 && Plain(SportsOutdoors[1].title) { assert Plain("Mountain Bike Helmet"); }
  lemma SportsOutdoorsTitle2() ensures |SportsOutdoors| == 5 && Plain(SportsOutdoors[2].title) { assert Plain("Adjustable Dumbbells 2x25lb"); }
  lemma SportsOutdoorsTitle3() ensures |SportsOutdoors| == 5 && Plain(SportsOutdoors[3].title) { assert Plain("Camping Tent 2-Person"); }
  lemma SportsOutdoorsTitle4() ensures |SportsOutdoors| == 5 && Plain(SportsOutdoors[4].title) { assert Plain("Fitness Tracker"); }

  /** The block authored for "Sports & Outdoors" is well formed. */
  lemma SportsOutdoorsOk()
    ensures BlockOk(SportsOutdoors)
  {
    SportsOutdoorsTitle0(); SportsOutdoorsTitle1(); SportsOutdoorsTitle2(); SportsOutdoorsTitle3(); SportsOutdoorsTitle4();
  }

  lemma ToysGamesTitle0() ensures |ToysGames| == 5 && Plain(ToysGames[0].title) { assert Plain("Building Blocks Set 500 pcs"); }
  lemma ToysGamesTitle1() ensures |ToysGames| == 5 && Plain(ToysGames[1].title) { assert Plain("Remote Control Car"); }
  lemma ToysGamesTitle2() ensures |ToysGames| == 5 && Plain(ToysGames[2].title) { assert Plain("Board Game Strategy"); }
  lemma ToysGamesTitle3() ensures |ToysGames| == 5 && Plain(ToysGames[3].title) { assert Plain("Plush Teddy Bear"); }
  lemma ToysGamesTitle4() ensures |ToysGames| == 5 && Plain(ToysGames[4].title) { assert Plain("Puzzle 1000 Pieces"); }

  /** The block authored for "Toys & Games" is well formed. */
  lemma ToysGamesOk()
    ensures BlockOk(ToysGames)
  {
    ToysGamesTitle0(); ToysGamesTitle1(); ToysGamesTitle2(); ToysGamesTitle3(); ToysGamesTitle4();
  }

  lemma BeautyPersonalCareTitle0() ensures |BeautyPersonalCare| == 5 && Plain(BeautyPersonalCare[0].title) { assert Plain("Facial Cleanser 200ml"); }
  lemma BeautyPersonalCareTitle1() ensures |BeautyPersonalCare| == 5 && Plain(BeautyPersonalCare[1].title) { assert Plain("Moisturizing Cream 50ml"); }
  lemma BeautyPersonalCareTitle2() ensures |BeautyPersonalCare| == 5 && Plain(BeautyPersonalCare[2].title) { assert Plain("Shampoo 400ml"); }
  lemma BeautyPersonalCareTitle3() ensures |BeautyPersonalCare| == 5 && Plain(BeautyPersonalCare[3].title) { assert Plain("Electric Toothbrush"); }
  lemma BeautyPersonalCareTitle4() ensures |BeautyPersonalCare| == 5 && Plain(BeautyPersonalCare[4].title) { assert Plain("Hair Dryer 1800W"); }

  /** The block authored for "Beauty & Personal Care" is well formed. */
  lemma BeautyPersonalCareOk()
    ensures BlockOk(BeautyPersonalCare)
  {
    BeautyPersonalCareTitle0(); BeautyPersonalCareTitle1(); BeautyPersonalCareTitle2(); BeautyPersonalCareTitle3(); BeautyPersonalCareTitle4();
  }

  lemma AutomotiveTitle0() ensures |Automotive| == 5 && Plain(Automotive[0].title) { assert Plain("Car Phone Mount"); }
  lemma AutomotiveTitle1() ensures |Automotive| == 5 && Plain(Automotive[1].title) { assert Plain("All-Weather Floor Mats"); }
  lemma AutomotiveTitle2() ensures |Automotive| == 5 && Plain(Automotive[2].title) { assert Plain("Portable Jump Starter"); }
  lemma AutomotiveTitle3() ensures |Automotive| == 5 && Plain(Automotive[3].title) { assert Plain("LED Headlight Bulbs"); }
  lemma AutomotiveTitle4() ensures |Automotive| == 5 && Plain(Automotive[4].title) { assert Plain("Tire Inflator"); }

  /** The block authored for "Automotive" is well formed. */
  lemma AutomotiveOk()
    ensures BlockOk(Automotive)
  {
    AutomotiveTitle0(); AutomotiveTitle1(); AutomotiveTitle2(); AutomotiveTitle3(); AutomotiveTitle4();
  }

  lemma GroceryTitle0() ensures |Grocery| == 5 && Plain(Grocery[0].title) { assert Plain("Organic Arabica Coffee Beans 1kg"); }
  lemma GroceryTitle1() ensures |Grocery| == 5 && Plain(Grocery[1].title) { assert Plain("Extra Virgin Olive Oil 1L"); }
  lemma GroceryTitle2() ensures |Grocery| == 5 && Plain(Grocery[2].title) { assert Plain("Whole Grain Pasta 500g"); }
  lemma GroceryTitle3() ensures |Grocery| == 5 && Plain(Grocery[3].title) { assert Plain("Almond Butter 340g"); }
  lemma GroceryTitle4() ensures |Grocery| == 5 && Plain(Grocery[4].title) { assert Plain("Protein Bars Pack of 12"); }

  /** The block authored for "Grocery" is well formed. */
  lemma GroceryOk()
    ensures BlockOk(Grocery)
  {
    GroceryTitle0(); GroceryTitle1(); GroceryTitle2(); GroceryTitle3(); GroceryTitle4();
  }

  lemma GardenToolsTitle0() ensures |GardenTools| == 5 && Plain(GardenTools[0].title) { assert Plain("Cordless Drill 20V"); }
  lemma GardenToolsTitle1() ensures |GardenTools| == 5 && Plain(GardenTools[1].title) { assert Plain("Gardening Tool Set 10 pcs"); }
  lemma GardenToolsTitle2() ensures |GardenTools| == 5 && Plain(GardenTools[2].title) { assert Plain("Pruning Shears"); }
  lemma GardenToolsTitle3() ensures |GardenTools| == 5 && Plain(GardenTools[3].title) { assert Plain("Lawn Sprinkler"); }
  lemma GardenToolsTitle4() ensures |GardenTools| == 5 && Plain(GardenTools[4].title) { assert Plain("LED Work Light"); }

  /** The block authored for "Garden & Tools" is well formed. */
  lemma GardenToolsOk()
    ensures BlockOk(GardenTools)
  {
    GardenToolsTitle0(); GardenToolsTitle1(); GardenToolsTitle2(); GardenToolsTitle3(); GardenToolsTitle4();
  }

  lemma ElectronicsApartBooks() ensures BlocksApart(Electronics, Books) {}
  lemma ElectronicsApartClothing() ensures BlocksApart(Electronics, Clothing) {}
  lemma ElectronicsApartHomeKitchen() ensures BlocksApart(Electronics, HomeKitchen) {}
  lemma ElectronicsApartSportsOutdoors() ensures BlocksApart(Electronics, SportsOutdoors) {}
  lemma ElectronicsApartToysGames() ensures BlocksApart(Electronics, ToysGames) {}
  lemma ElectronicsApartBeautyPersonalCare() ensures BlocksApart(Electronics, BeautyPersonalCare) {}
  lemma ElectronicsApartAutomotive() ensures BlocksApart(Electronics, Automotive) {}
  lemma ElectronicsApartGrocery() ensures BlocksApart(Electronics, Grocery) {}
  lemma ElectronicsApartGardenTools() ensures BlocksApart(Electronics, GardenTools) {}
  lemma BooksApartClothing() ensures BlocksApart(Books, Clothing) {}
  lemma BooksApartHomeKitchen() ensures BlocksApart(Books, HomeKitchen) {}
  lemma BooksApartSportsOutdoors() ensures BlocksApart(Books, SportsOutdoors) {}
  lemma BooksApartToysGames() ensures BlocksApart(Books, ToysGames) {}
  lemma BooksApartBeautyPersonalCare() ensures BlocksApart(Books, BeautyPersonalCare) {}
  lemma BooksApartAutomotive() ensures BlocksApart(Books, Automotive) {}
  lemma BooksApartGrocery() ensures BlocksApart(Books, Grocery) {}
  lemma BooksApartGardenTools() ensures BlocksApart(Books, GardenTools) {}
  lemma ClothingApartHomeKitchen() ensures BlocksApart(Clothing, HomeKitchen) {}
  lemma ClothingApartSportsOutdoors() ensures BlocksApart(Clothing, SportsOutdoors) {}
  lemma ClothingApartToysGames() ensures BlocksApart(Clothing, ToysGames) {}
  lemma ClothingApartBeautyPersonalCare() ensures BlocksApart(Clothing, BeautyPersonalCare) {}
  lemma ClothingApartAutomotive() ensures BlocksApart(Clothing, Automotive) {}
  lemma ClothingApartGrocery() ensures BlocksApart(Clothing, Grocery) {}
  lemma ClothingApartGardenTools() ensures BlocksApart(Clothing, GardenTools) {}
  lemma HomeKitchenApartSportsOutdoors() ensures BlocksApart(HomeKitchen, SportsOutdoors) {}
  lemma HomeKitchenApartToysGames() ensures BlocksApart(HomeKitchen, ToysGames) {}
  lemma HomeKitchenApartBeautyPersonalCare() ensures BlocksApart(HomeKitchen, BeautyPersonalCare) {}
  lemma HomeKitchenApartAutomotive() ensures BlocksApart(HomeKitchen, Automotive) {}
  lemma HomeKitchenApartGrocery() ensures BlocksApart(HomeKitchen, Grocery) {}
  lemma HomeKitchenApartGardenTools() ensures BlocksApart(HomeKitchen, GardenTools) {}
  lemma SportsOutdoorsApartToysGames() ensures BlocksApart(SportsOutdoors, ToysGames) {}
  lemma SportsOutdoorsApartBeautyPersonalCare() ensures BlocksApart(SportsOutdoors, BeautyPersonalCare) {}
  lemma SportsOutdoorsApartAutomotive() ensures BlocksApart(SportsOutdoors, Automotive) {}
  lemma SportsOutdoorsApartGrocery() ensures BlocksApart(SportsOutdoors, Grocery) {}
  lemma SportsOutdoorsApartGardenTools() ensures BlocksApart(SportsOutdoors, GardenTools) {}
  lemma ToysGamesApartBeautyPersonalCare() ensures BlocksApart(ToysGames, BeautyPersonalCare) {}
  lemma ToysGamesApartAutomotive() ensures BlocksApart(ToysGames, Automotive) {}
  lemma ToysGamesApartGrocery() ensures BlocksApart(ToysGames, Grocery) {}
  lemma ToysGamesApartGardenTools() ensures BlocksApart(ToysGames, GardenTools) {}
  lemma BeautyPersonalCareApartAutomotive() ensures BlocksApart(BeautyPersonalCare, Automotive) {}
  lemma BeautyPersonalCareApartGrocery() ensures BlocksApart(BeautyPersonalCare, Grocery) {}
  lemma BeautyPersonalCareApartGardenTools() ensures BlocksApart(BeautyPersonalCare, GardenTools) {}
  lemma AutomotiveApartGrocery() ensures BlocksApart(Automotive, Grocery) {}
  lemma AutomotiveApartGardenTools() ensures BlocksApart(Automotive, GardenTools) {}
  lemma GroceryApartGardenTools() ensures BlocksApart(Grocery, GardenTools) {}

  /** The authored fixture as a table, one row per category name in order. */
  const FixtureTable: seq<CategorySeed> := [
    CategorySeed("Electronics", Electronics),
    CategorySeed("Books", Books),
    CategorySeed("Clothing", Clothing),
    CategorySeed("Home & Kitchen", HomeKitchen),
    CategorySeed("Sports & Outdoors", SportsOutdoors),
    CategorySeed("Toys & Games", ToysGames),
    CategorySeed("Beauty & Personal Care", BeautyPersonalCare),
    CategorySeed("Automotive", Automotive),
    CategorySeed("Grocery", Grocery),
    CategorySeed("Garden & Tools", GardenTools)
  ]

  /** The seed table the seeder builds is the authored fixture, block by block. */
  lemma SeedTableIsFixture()
    ensures SeedTable(CategoryNames) == FixtureTable
  {}

  /** A table whose rows are well-formed blocks under short names, pairwise
      apart under distinct names, fits the schema. */
  lemma TableFitsFromBlocks(t: seq<CategorySeed>)
    requires forall i :: 0 <= i < |t| ==> |t[i].name| <= CategoryTitleMaxLength && BlockOk(t[i].entries)
    requires forall i, j :: 0 <= i < j < |t| ==> t[i].name != t[j].name && BlocksApart(t[i].entries, t[j].entries)
    ensures TableFits(t)
  {
    forall i | 0 <= i < |t| ensures RowFits(t[i]) {
      BlockRowFits(t[i].name, t[i].entries);
    }
    forall i1, i2 | 0 <= i1 < i2 < |t| ensures RowsDisjoint(t[i1], t[i2]) {
      BlockRowsDisjoint(t[i1].name, t[i1].entries, t[i2].name, t[i2].entries);
    }
  }

  /** Every authored block is well formed under a short name. */
  lemma FixtureBlocksOk()
    ensures forall i :: 0 <= i < |FixtureTable| ==>
      |FixtureTable[i].name| <= CategoryTitleMaxLength && BlockOk(FixtureTable[i].entries)
  {
    ElectronicsOk(); BooksOk(); ClothingOk(); HomeKitchenOk(); SportsOutdoorsOk(); ToysGamesOk(); BeautyPersonalCareOk(); AutomotiveOk(); GroceryOk(); GardenToolsOk();
  }

  /** Every two authored blocks are apart, under distinct names. */
  lemma FixtureBlocksApart()
    ensures forall i, j :: 0 <= i < j < |FixtureTable| ==>
      FixtureTable[i].name != FixtureTable[j].name && BlocksApart(FixtureTable[i].entries, FixtureTable[j].entries)
  {
    ElectronicsApartBooks(); ElectronicsApartClothing(); ElectronicsApartHomeKitchen();
    ElectronicsApartSportsOutdoors(); ElectronicsApartToysGames(); ElectronicsApartBeautyPersonalCare();
    ElectronicsApartAutomotive(); ElectronicsApartGrocery(); ElectronicsApartGardenTools();
    BooksApartClothing(); BooksApartHomeKitchen(); BooksApartSportsOutdoors();
    BooksApartToysGames(); BooksApartBeautyPersonalCare(); BooksApartAutomotive();
    BooksApartGrocery(); BooksApartGardenTools(); ClothingApartHomeKitchen();
    ClothingApartSportsOutdoors(); ClothingApartToysGames(); ClothingApartBeautyPersonalCare();
    ClothingApartAutomotive(); ClothingApartGrocery(); ClothingApartGardenTools();
    HomeKitchenApartSportsOutdoors(); HomeKitchenApartToysGames(); HomeKitchenApartBeautyPersonalCare();
    HomeKitchenApartAutomotive(); HomeKitchenApartGrocery(); HomeKitchenApartGardenTools();
    SportsOutdoorsApartToysGames(); SportsOutdoorsApartBeautyPersonalCare(); SportsOutdoorsApartAutomotive();
    SportsOutdoorsApartGrocery(); SportsOutdoorsApartGardenTools(); ToysGamesApartBeautyPersonalCare();
    ToysGamesApartAutomotive(); ToysGamesApartGrocery(); ToysGamesApartGardenTools();
    BeautyPersonalCareApartAutomotive(); BeautyPersonalCareApartGrocery(); BeautyPersonalCareApartGardenTools();
    AutomotiveApartGrocery(); AutomotiveApartGardenTools(); GroceryApartGardenTools();
  }

  /** The authored fixture, as a table, fits the schema. */
  lemma FixtureTableFits()
    ensures TableFits(FixtureTable)
  {
    FixtureBlocksOk();
    FixtureBlocksApart();
    TableFitsFromBlocks(FixtureTable);
  }

  /** The seeder's claim holds: the authored product titles are globally
      unique, and the authored catalog meets every other constraint of the schema. */
  lemma FixtureFits()
    ensures TableFits(SeedTable(CategoryNames))
  {
    SeedTableIsFixture();
    FixtureTableFits();
  }

  /** Row `i` of the fixture table is the i-th category name with the products
      authored for it. */
  lemma FixtureTableIsAuthored()
    ensures |FixtureTable| == |CategoryNames|
    ensures forall i :: 0 <= i < |FixtureTable| ==>
      FixtureTable[i].name == CategoryNames[i] && FixtureTable[i].entries == ProductsForCategory(CategoryNames[i])
  {
    SeedTableIsFixture();
  }

  /** The seeder lists ten category names, pairwise distinct, each fitting
      the category title column. */
  lemma CategoryNamesListed()
    ensures |CategoryNames| == 10
    ensures forall i :: 0 <= i < |CategoryNames| ==> |CategoryNames[i]| <= CategoryTitleMaxLength
    ensures forall i, j :: 0 <= i < j < |CategoryNames| ==> CategoryNames[i] != CategoryNames[j]
  {
    FixtureTableIsAuthored();
    FixtureBlocksOk();
    FixtureBlocksApart();
  }

  /** The catalog built from the fixture holds one category per listed
      name, in the listed order, with consecutive keys. */
  lemma FixtureCategories(firstCategoryId: int, firstProductId: int)
    ensures var b := BuildCatalog(FixtureTable, firstCategoryId, firstProductId);
            && |b.categories| == |CategoryNames|
            && forall i :: 0 <= i < |CategoryNames| ==>
                 b.categories[i].id == firstCategoryId + i && b.categories[i].title == CategoryNames[i]
  {
    assert forall i :: 0 <= i < |CategoryNames| ==> FixtureTable[i].name == CategoryNames[i];
  }

  /** In the catalog of a table of well-formed blocks, product `k` of row `i`
      sits at position `5 * i + k`, belongs to the row's category, carries
      the key issued at its position, and is made from the row's k-th entry
      with its title unchanged. */
  lemma BlockCatalog(table: seq<CategorySeed>, firstCategoryId: int, firstProductId: int, i: nat, k: nat)
    requires forall r :: 0 <= r < |table| ==> BlockOk(table[r].entries)
    requires i < |table| && k < 5
    ensures |table[i].entries| == 5
    ensures var b := BuildCatalog(table, firstCategoryId, firstProductId);
            var e := table[i].entries[k];
            && |b.products| == 5 * |table|
            && b.products[5 * i + k].categoryId == firstCategoryId + i
            && b.products[5 * i + k].id == firstProductId + 5 * i + k
            && b.products[5 * i + k].title == e.title
            && b.products[5 * i + k].price == e.price
            && b.products[5 * i + k].stock == e.stock
            && b.products[5 * i + k].description == Some(e.description)
  {
    UniformOffsets(table, 5);
    assert Offset(table, i) == 5 * i;
    assert BlockOk(table[i].entries);
    CatalogBlock(table, firstCategoryId, firstProductId, i, k);
    PlainTitleKept(table[i].entries[k].title);
  }

  /** In the catalog of a table of well-formed blocks, row `i` owns exactly
      the five products at positions `5 * i` to `5 * i + 4`. */
  lemma BlockOwnership(table: seq<CategorySeed>, firstCategoryId: int, firstProductId: int, i: nat, j: nat)
    requires forall r :: 0 <= r < |table| ==> BlockOk(table[r].entries)
    requires i < |table| && j < 5 * |table|
    ensures var b := BuildCatalog(table, firstCategoryId, firstProductId);
            && |b.products| == 5 * |table|
            && (b.products[j].categoryId == firstCategoryId + i <==> 5 * i <= j < 5 * i + 5)
  {
    UniformOffsets(table, 5);
    CatalogOwnership(table, firstCategoryId, firstProductId, i, j);
  }

  /** Product `k` of category `i` in the catalog built from the fixture sits
      at position `5 * i + k`, belongs to category `i`, carries the key
      issued at its position, and is made from the k-th entry authored for
      the category, with its title unchanged and its price, stock and
      description copied. */
  lemma FixtureCatalog(firstCategoryId: int, firstProductId: int, i: nat, k: nat)
    requires i < |FixtureTable| && k < 5
    ensures |FixtureTable[i].entries| == 5
    ensures var b := BuildCatalog(FixtureTable, firstCategoryId, firstProductId);
            var e := FixtureTable[i].entries[k];
            && |b.products| == 5 * |FixtureTable|
            && b.products[5 * i + k].categoryId == firstCategoryId + i
            && b.products[5 * i + k].id == firstProductId + 5 * i + k
            && b.products[5 * i + k].title == e.title
            && b.products[5 * i + k].price == e.price
            && b.products[5 * i + k].stock == e.stock
            && b.products[5 * i + k].description == Some(e.description)
  {
    FixtureBlocksOk();
    BlockCatalog(FixtureTable, firstCategoryId, firstProductId, i, k);
  }

  /** Category `i` of the catalog built from the fixture owns exactly the
      five products at positions `5 * i` to `5 * i + 4`. */
  lemma FixtureOwnership(firstCategoryId: int, firstProductId: int, i: nat, j: nat)
    requires i < |FixtureTable| && j < 5 * |FixtureTable|
    ensures var b := BuildCatalog(FixtureTable, firstCategoryId, firstProductId);
            && |b.products| == 5 * |FixtureTable|
            && (b.products[j].categoryId == firstCategoryId + i <==> 5 * i <= j < 5 * i + 5)
  {
    FixtureBlocksOk();
    BlockOwnership(FixtureTable, firstCategoryId, firstProductId, i, j);
  }

  /** Seeding a valid store that has no category succeeds, commits exactly
      the catalog built from the fixture with keys issued from the store's
      counters, and leaves a valid store. */
  lemma SeedFreshStore(s: Store)
    requires Valid(s) && |s.categories| == 0
    ensures SeedData(s).Success?
    ensures var r := SeedData(s).value;
            var b := BuildCatalog(FixtureTable, s.nextCategoryId, s.nextProductId);
            && Valid(r)
            && r.categories == b.categories
            && r.products == b.products
  {
    FixtureFits();
    SeedWithFreshStore(s, SeedTable(CategoryNames));
    SeedTableIsFixture();
    NoCategoriesNoProducts(s);
  }

  /** Seeding a freshly created database succeeds and stores the ten listed
      categories, with keys 1 to 10, and their fifty products, with keys 1
      to 50. */
  lemma SeedEmptyStore()
    ensures SeedData(EmptyStore).Success?
    ensures var r := SeedData(EmptyStore).value;
            && Valid(r)
            && |r.categories| == 10
            && (forall i :: 0 <= i < 10 ==> r.categories[i].id == 1 + i && r.categories[i].title == CategoryNames[i])
            && |r.products| == 50
            && (forall j :: 0 <= j < 50 ==> r.products[j].id == 1 + j)
  {
    EmptyStoreValid();
    SeedFreshStore(EmptyStore);
    FixtureCategories(1, 1);
    FixtureCatalog(1, 1, 0, 0);
    CatalogProductKeys(FixtureTable, 1, 1);
  }
}
