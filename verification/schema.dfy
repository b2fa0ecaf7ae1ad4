/** The relational schema of the catalog store: two tables, their keys,
    unique indexes, column limits and the cascading foreign key from
    products to categories. A store is a pair of row sequences plus the
    two identity generators the database uses to hand out primary keys. */
module Schema {
  import opened Common

  const CategoryTitleMaxLength := 64
  const ProductTitleMaxLength := 128
  const DescriptionMaxLength := 512

  /** decimal(16,4): prices are held as whole numbers of 1/10000 currency units,
      and 16 significant digits bound the scaled value strictly below 10^16. */
  const PriceScale := 10000
  const PriceLimit := 10_000_000_000_000_000

  /** The range of the 32-bit integer columns. */
  const Int32Min := -0x8000_0000
  const Int32Max := 0x7FFF_FFFF

  datatype Category = Category(id: int, title: string)

  /** A product row. `categoryId` is the foreign key; the price is scaled by `PriceScale`. */
  datatype Product = Product(
    id: int,
    categoryId: int,
    title: string,
    price: int,
    stock: int,
    description: Option<string>)

  datatype Store = Store(
    categories: seq<Category>,
    products: seq<Product>,
    nextCategoryId: int,
    nextProductId: int)

  /** A freshly created database: no rows, both identity generators at 1. */
  const EmptyStore := Store([], [], 1, 1)

  /** A freshly created database satisfies the schema. */
  lemma EmptyStoreValid()
    ensures Valid(EmptyStore)
  {}

  /** The title column of the category table: required (never null) and at most 64 characters. */
  predicate CategoryFits(c: Category) {
    |c.title| <= CategoryTitleMaxLength
  }

  /** The column limits of the product table, on the values of one row. */
  predicate ProductColumnsFit(title: string, description: Option<string>, price: int, stock: int) {
    && |title| <= ProductTitleMaxLength
    && (description.Some? ==> |description.value| <= DescriptionMaxLength)
    && -PriceLimit < price < PriceLimit
    && Int32Min <= stock <= Int32Max
  }

  /** A product row fits the product table's columns. */
  predicate ProductFits(p: Product) {
    ProductColumnsFit(p.title, p.description, p.price, p.stock)
  }

  /** Some category row has the primary key `id`. */
  predicate HasCategory(categories: seq<Category>, id: int) {
    exists i :: 0 <= i < |categories| && categories[i].id == id
  }

  /** Every product's foreign key names an existing category. */
  predicate ForeignKeysHold(s: Store) {
    forall p :: p in s.products ==> HasCategory(s.categories, p.categoryId)
  }

  /** Every key in use was handed out by the identity generators. */
  predicate KeysIssued(s: Store) {
    && (forall c :: c in s.categories ==> c.id < s.nextCategoryId)
    && (forall p :: p in s.products ==> p.id < s.nextProductId)
  }

  /** Every constraint the schema declares holds of the store. */
  predicate Valid(s: Store) {
    && UniqueBy(s.categories, (c: Category) => c.id)
    && UniqueBy(s.categories, (c: Category) => c.title)
    && (forall c :: c in s.categories ==> CategoryFits(c))
    && UniqueBy(s.products, (p: Product) => p.id)
    && UniqueBy(s.products, (p: Product) => p.title)
    && (forall p :: p in s.products ==> ProductFits(p))
    && ForeignKeysHold(s)
    && KeysIssued(s)
  }

  /** Why a commit was refused. */
  datatype CommitError = ConstraintViolation

  /** The store after inserting a batch of rows whose keys come from the identity generators. */
  function Append(s: Store, categories: seq<Category>, products: seq<Product>): Store {
    Store(
      s.categories + categories,
      s.products + products,
      s.nextCategoryId + |categories|,
      s.nextProductId + |products|)
  }

  /** Saves a batch in one transaction: either every row is stored and every
      constraint holds, or nothing is stored and the commit fails. */
  function Commit(s: Store, categories: seq<Category>, products: seq<Product>): (r: Result<Store, CommitError>)
    ensures r.Success? ==> Valid(r.value)
    ensures r.Success? ==> r.value.categories == s.categories + categories
    ensures r.Success? ==> r.value.products == s.products + products
    ensures r.Failure? ==> !Valid(Append(s, categories, products))
  {
    var t := Append(s, categories, products);
    if Valid(t) then Success(t) else Failure(ConstraintViolation)
  }

  // Each constraint the schema declares refuses a batch that would break it.

  /** The primary key of the category table: two categories under one key are refused. */
  lemma CommitRejectsDuplicateCategoryKey(s: Store, categories: seq<Category>, products: seq<Product>, i: int, j: int)
    requires var cs := s.categories + categories;
             0 <= i < j < |cs| && cs[i].id == cs[j].id
    ensures Commit(s, categories, products).Failure?
  {
    var t := Append(s, categories, products);
    assert ((c: Category) => c.id)(t.categories[i]) == ((c: Category) => c.id)(t.categories[j]);
  }

  /** The primary key of the product table: two products under one key are refused. */
  lemma CommitRejectsDuplicateProductKey(s: Store, categories: seq<Category>, products: seq<Product>, i: int, j: int)
    requires var ps := s.products + products;
             0 <= i < j < |ps| && ps[i].id == ps[j].id
    ensures Commit(s, categories, products).Failure?
  {
    var t := Append(s, categories, products);
    assert ((p: Product) => p.id)(t.products[i]) == ((p: Product) => p.id)(t.products[j]);
  }

  /** The unique index on category titles: two categories under one title are refused. */
  lemma CommitRejectsDuplicateCategoryTitle(s: Store, categories: seq<Category>, products: seq<Product>, i: int, j: int)
    requires var cs := s.categories + categories;
             0 <= i < j < |cs| && cs[i].title == cs[j].title
    ensures Commit(s, categories, products).Failure?
  {
    var t := Append(s, categories, products);
    assert ((c: Category) => c.title)(t.categories[i]) == ((c: Category) => c.title)(t.categories[j]);
  }

  /** The unique index on product titles: two products under one title are refused. */
  lemma CommitRejectsDuplicateProductTitle(s: Store, categories: seq<Category>, products: seq<Product>, i: int, j: int)
    requires var ps := s.products + products;
             0 <= i < j < |ps| && ps[i].title == ps[j].title
    ensures Commit(s, categories, products).Failure?
  {
    var t := Append(s, categories, products);
    assert ((p: Product) => p.title)(t.products[i]) == ((p: Product) => p.title)(t.products[j]);
  }

  /** The category title column is declared to hold at most 64 characters;
      the store is one that enforces the declared length. */
  lemma CommitRejectsLongCategoryTitle(s: Store, categories: seq<Category>, products: seq<Product>, i: int)
    requires var cs := s.categories + categories;
             0 <= i < |cs| && |cs[i].title| > CategoryTitleMaxLength
    ensures Commit(s, categories, products).Failure?
  {
    var t := Append(s, categories, products);
    assert t.categories[i] in t.categories;
  }

  /** A product whose title is over 128 characters, whose description is
      over 512, whose price exceeds decimal(16,4) or whose stock exceeds a
      32-bit integer is refused, by a store that enforces declared lengths
      and precision. */
  lemma CommitRejectsUnfitProduct(s: Store, categories: seq<Category>, products: seq<Product>, i: int)
    requires var ps := s.products + products;
             && 0 <= i < |ps|
             && (|| |ps[i].title| > ProductTitleMaxLength
                 || (ps[i].description.Some? && |ps[i].description.value| > DescriptionMaxLength)
                 || ps[i].price <= -PriceLimit || PriceLimit <= ps[i].price
                 || ps[i].stock < Int32Min || Int32Max < ps[i].stock)
    ensures Commit(s, categories, products).Failure?
  {
    var t := Append(s, categories, products);
    assert t.products[i] in t.products;
  }

  /** The foreign key: a product whose category key names no category is refused. */
  lemma CommitRejectsDanglingProduct(s: Store, categories: seq<Category>, products: seq<Product>, i: int)
    requires var cs := s.categories + categories;
             var ps := s.products + products;
             && 0 <= i < |ps|
             && forall k :: 0 <= k < |cs| ==> cs[k].id != ps[i].categoryId
    ensures Commit(s, categories, products).Failure?
  {
    var t := Append(s, categories, products);
    assert !HasCategory(t.categories, t.products[i].categoryId);
    assert t.products[i] in t.products;
  }

  /** Deletes the category with key `id`; the foreign key's cascade deletes
      every product that refers to it in the same statement. */
  function DeleteCategory(s: Store, id: int): (r: Store)
    ensures forall c :: multiset(r.categories)[c] == if c.id == id then 0 else multiset(s.categories)[c]
    ensures forall p :: multiset(r.products)[p] == if p.categoryId == id then 0 else multiset(s.products)[p]
    ensures !HasCategory(r.categories, id)
    ensures forall p :: p in r.products ==> p.categoryId != id
    ensures r.nextCategoryId == s.nextCategoryId && r.nextProductId == s.nextProductId
  {
    Store(
      Filter(s.categories, (c: Category) => c.id != id),
      Filter(s.products, (p: Product) => p.categoryId != id),
      s.nextCategoryId,
      s.nextProductId)
  }

  /** The rows that survive a delete are rows of the store before it. */
  lemma DeleteCategoryKeepsRows(s: Store, id: int)
    ensures forall c :: c in DeleteCategory(s, id).categories ==> c in s.categories && c.id != id
    ensures forall p :: p in DeleteCategory(s, id).products ==> p in s.products && p.categoryId != id
  {
    var r := DeleteCategory(s, id);
    forall c | c in r.categories ensures c in s.categories && c.id != id {
      assert multiset(r.categories)[c] > 0;
    }
    forall p | p in r.products ensures p in s.products && p.categoryId != id {
      assert multiset(r.products)[p] > 0;
    }
  }

  /** A surviving product's category survives too: it is not the deleted one. */
  lemma DeleteCategoryKeepsForeignKeys(s: Store, id: int)
    requires ForeignKeysHold(s)
    ensures ForeignKeysHold(DeleteCategory(s, id))
  {
    var r := DeleteCategory(s, id);
    DeleteCategoryKeepsRows(s, id);
    forall p | p in r.products
      ensures HasCategory(r.categories, p.categoryId)
    {
      var i :| 0 <= i < |s.categories| && s.categories[i].id == p.categoryId;
      var c := s.categories[i];
      assert multiset(r.categories)[c] == multiset(s.categories)[c] > 0;
      var k :| 0 <= k < |r.categories| && r.categories[k] == c;
    }
  }

  /** The cascade never leaves a product pointing at a deleted category, so a
      valid store stays valid. */
  lemma DeleteCategoryPreservesValid(s: Store, id: int)
    requires Valid(s)
    ensures Valid(DeleteCategory(s, id))
  {
    var r := DeleteCategory(s, id);
    FilterKeepsUnique(s.categories, (c: Category) => c.id != id, (c: Category) => c.id);
    FilterKeepsUnique(s.categories, (c: Category) => c.id != id, (c: Category) => c.title);
    FilterKeepsUnique(s.products, (p: Product) => p.categoryId != id, (p: Product) => p.id);
    FilterKeepsUnique(s.products, (p: Product) => p.categoryId != id, (p: Product) => p.title);
    DeleteCategoryKeepsRows(s, id);
    DeleteCategoryKeepsForeignKeys(s, id);
  }

  /** Deleting a category removes exactly its products: a product survives
      precisely when it belonged to some other category. */
  lemma DeleteCategoryRemovesExactlyItsProducts(s: Store, id: int, p: Product)
    ensures p in DeleteCategory(s, id).products <==> p in s.products && p.categoryId != id
  {
    var r := DeleteCategory(s, id);
    assert p in r.products <==> multiset(r.products)[p] > 0;
    assert p in s.products <==> multiset(s.products)[p] > 0;
  }
}
