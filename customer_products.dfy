/** The customer's product listing. Each time a filter changes it asks for
    either every product or a filtered list, then groups the answer by
    category: one group per category id, and the list of categories in the
    order their first product arrived. */
module CustomerProducts {
  import opened Common
  import opened CatalogTypes

  /** The filter inputs; a cleared number input holds no value. */
  datatype Filters = Filters(name: string, minPrice: Option<int>, maxPrice: Option<int>, categoryId: Option<string>)

  /** JavaScript truthiness of an optional number: absent and 0 are falsy. */
  predicate NumberTruthy(n: Option<int>)
  {
    n.Some? && n.value != 0
  }

  /** The condition that picks the filtered endpoint. */
  predicate UsesFilteredEndpoint(f: Filters)
  {
    f.name != "" || NumberTruthy(f.minPrice) || NumberTruthy(f.maxPrice) || Truthy(f.categoryId)
  }

  datatype ProductRequest = AllProducts | FilteredProducts(filters: Filters)

  /** The request `fetchProducts` makes: the filters are sent as they are
      whenever one of them is truthy. */
  function RequestFor(f: Filters): (r: ProductRequest)
    ensures r.FilteredProducts? <==> UsesFilteredEndpoint(f)
    ensures r.FilteredProducts? ==> r.filters == f
  {
    if UsesFilteredEndpoint(f) then FilteredProducts(f) else AllProducts
  }

  /** A minimum price of 0, an empty name and an empty category id all count
      as no filter at all. */
  lemma FalsyFiltersFetchEverything(maxPrice: Option<int>)
    requires maxPrice.None? || maxPrice == Some(0)
    ensures RequestFor(Filters("", Some(0), maxPrice, Some(""))) == AllProducts
  {
  }

  // ---------------------------------------------------------------------
  // Grouping, as specified
  // ---------------------------------------------------------------------

  /** A category as listed: its id and the name carried by its first product. */
  datatype CategoryEntry = CategoryEntry(id: string, name: string)

  function CategoryIdsOf(ps: seq<Product>): (ids: seq<string>)
    ensures |ids| == |ps| && forall k :: 0 <= k < |ps| ==> ids[k] == ps[k].categoryId
  {
    seq(|ps|, k requires 0 <= k < |ps| => ps[k].categoryId)
  }

  function EntryIds(es: seq<CategoryEntry>): (ids: seq<string>)
    ensures |ids| == |es| && forall k :: 0 <= k < |es| ==> ids[k] == es[k].id
  {
    seq(|es|, k requires 0 <= k < |es| => es[k].id)
  }

  /** The category list after the products `ps` have been seen. */
  function CategoryListOf(ps: seq<Product>): seq<CategoryEntry>
  {
    if |ps| == 0 then []
    else
      var prev := CategoryListOf(ps[..|ps| - 1]);
      var p := ps[|ps| - 1];
      if p.categoryId in EntryIds(prev) then prev else prev + [CategoryEntry(p.categoryId, p.categoryName)]
  }

  /** The products of one category, in their original order. */
  function Group(ps: seq<Product>, id: string): seq<Product>
  {
    if |ps| == 0 then []
    else Group(ps[..|ps| - 1], id) + (if ps[|ps| - 1].categoryId == id then [ps[|ps| - 1]] else [])
  }

  lemma CategoryIdsOfPrefix(ps: seq<Product>, n: nat)
    requires n <= |ps|
    ensures CategoryIdsOf(ps[..n]) == CategoryIdsOf(ps)[..n]
  {
  }

  /** The listed ids are the products' category ids with repeats removed,
      each at its first occurrence. */
  lemma {:induction false} CategoryListIsDedupe(ps: seq<Product>)
    ensures EntryIds(CategoryListOf(ps)) == Dedupe(CategoryIdsOf(ps))
  {
    if |ps| > 0 {
      var n := |ps|;
      CategoryListIsDedupe(ps[..n - 1]);
      CategoryIdsOfPrefix(ps, n - 1);
      var prev := CategoryListOf(ps[..n - 1]);
      var e := CategoryEntry(ps[n - 1].categoryId, ps[n - 1].categoryName);
      assert EntryIds(prev + [e]) == EntryIds(prev) + [e.id];
    }
  }

  /** No category is listed twice, and the list follows first occurrence. */
  lemma CategoryListOrder(ps: seq<Product>, i: nat, j: nat)
    requires i < j < |CategoryListOf(ps)|
    ensures CategoryListOf(ps)[i].id != CategoryListOf(ps)[j].id
    ensures CategoryListOf(ps)[i].id in CategoryIdsOf(ps) && CategoryListOf(ps)[j].id in CategoryIdsOf(ps)
    ensures FirstIndex(CategoryIdsOf(ps), CategoryListOf(ps)[i].id) < FirstIndex(CategoryIdsOf(ps), CategoryListOf(ps)[j].id)
  {
    CategoryListIsDedupe(ps);
    var ids := EntryIds(CategoryListOf(ps));
    assert ids[i] in Dedupe(CategoryIdsOf(ps)) && ids[j] in Dedupe(CategoryIdsOf(ps));
    DedupeKeepsFirstOccurrenceOrder(CategoryIdsOf(ps), i, j);
  }

  /** A listed category is named after its first product. */
  lemma {:induction false} CategoryListNames(ps: seq<Product>, e: CategoryEntry)
    requires e in CategoryListOf(ps)
    ensures e.id in CategoryIdsOf(ps)
    ensures e.name == ps[FirstIndex(CategoryIdsOf(ps), e.id)].categoryName
  {
    var n := |ps|;
    var prev := CategoryListOf(ps[..n - 1]);
    CategoryIdsOfPrefix(ps, n - 1);
    if e in prev {
      CategoryListNames(ps[..n - 1], e);
      FirstIndexOfPrefix(CategoryIdsOf(ps[..n - 1]), ps[n - 1].categoryId, e.id);
      assert CategoryIdsOf(ps) == CategoryIdsOf(ps[..n - 1]) + [ps[n - 1].categoryId];
    } else {
      assert e.id !in EntryIds(prev);
      CategoryListIsDedupe(ps[..n - 1]);
      assert e.id !in CategoryIdsOf(ps)[..n - 1];
      FirstIndexIsUnique(CategoryIdsOf(ps), e.id, n - 1);
    }
  }

  /** Every product of a group has that category and comes from the input;
      a category that occurs has a non-empty group, one that does not has none. */
  lemma {:induction false} GroupContents(ps: seq<Product>, id: string)
    ensures forall p :: p in Group(ps, id) ==> p in ps && p.categoryId == id
    ensures |Group(ps, id)| > 0 <==> id in CategoryIdsOf(ps)
  {
    if |ps| > 0 {
      var n := |ps|;
      GroupContents(ps[..n - 1], id);
      CategoryIdsOfPrefix(ps, n - 1);
      assert CategoryIdsOf(ps) == CategoryIdsOf(ps[..n - 1]) + [ps[n - 1].categoryId];
    }
  }

  /** The total size of the groups of the listed ids. */
  function GroupSizes(ps: seq<Product>, ids: seq<string>): nat
  {
    if |ids| == 0 then 0 else GroupSizes(ps, ids[..|ids| - 1]) + |Group(ps, ids[|ids| - 1])|
  }

  /** Adding one product grows exactly one of the listed groups, by one. */
  lemma {:induction false} GroupSizesAfterProduct(ps: seq<Product>, p: Product, ids: seq<string>)
    ensures GroupSizes(ps + [p], ids) == GroupSizes(ps, ids) + Count(ids, p.categoryId)
  {
    if |ids| > 0 {
      GroupSizesAfterProduct(ps, p, ids[..|ids| - 1]);
      assert (ps + [p])[..|ps + [p]| - 1] == ps;
    }
  }

  /** How many times `x` occurs in `s`. */
  function Count(s: seq<string>, x: string): nat
  {
    if |s| == 0 then 0 else Count(s[..|s| - 1], x) + (if s[|s| - 1] == x then 1 else 0)
  }

  lemma {:induction false} CountOfDistinct(s: seq<string>, x: string)
    requires NoDuplicates(s)
    ensures Count(s, x) == if x in s then 1 else 0
  {
    if |s| > 0 {
      CountOfDistinct(s[..|s| - 1], x);
    }
  }

  lemma {:induction false} GroupSizesOfAbsent(ps: seq<Product>, ids: seq<string>, x: string)
    requires x !in CategoryIdsOf(ps)
    ensures GroupSizes(ps, ids + [x]) == GroupSizes(ps, ids)
  {
    GroupContents(ps, x);
    assert (ids + [x])[..|ids|] == ids;
  }

  /** The groups of the listed categories hold every product exactly once. */
  lemma {:induction false} GroupSizesSumToInput(ps: seq<Product>)
    ensures GroupSizes(ps, EntryIds(CategoryListOf(ps))) == |ps|
  {
    if |ps| > 0 {
      var n := |ps|;
      var front := ps[..n - 1];
      var p := ps[n - 1];
      var prev := EntryIds(CategoryListOf(front));
      GroupSizesSumToInput(front);
      CategoryListIsDedupe(front);
      assert front + [p] == ps;
      GroupSizesAfterProduct(front, p, prev);
      CountOfDistinct(prev, p.categoryId);
      if p.categoryId !in prev {
        NewCategoryGroupSize(ps, prev);
      }
    }
  }

  /** The last product opens a new category: the list grows by its id, whose
      group is that one product. */
  lemma NewCategoryGroupSize(ps: seq<Product>, prev: seq<string>)
    requires |ps| > 0 && prev == EntryIds(CategoryListOf(ps[..|ps| - 1]))
    requires ps[|ps| - 1].categoryId !in prev
    ensures EntryIds(CategoryListOf(ps)) == prev + [ps[|ps| - 1].categoryId]
    ensures GroupSizes(ps, EntryIds(CategoryListOf(ps))) == GroupSizes(ps, prev) + 1
  {
    var n := |ps|;
    var x := ps[n - 1].categoryId;
    CategoryListIsDedupe(ps[..n - 1]);
    GroupContents(ps[..n - 1], x);
    var ids := prev + [x];
    assert ids[..|ids| - 1] == prev;
  }

  // ---------------------------------------------------------------------
  // Grouping, as the page does it
  // ---------------------------------------------------------------------

  /** The `forEach` loop of `fetchProducts`: a set of seen ids, the category
      list, and a record from id to that category's products. */
  method GroupProducts(allProducts: seq<Product>) returns (grouped: map<string, seq<Product>>, categoryList: seq<CategoryEntry>)
    ensures categoryList == CategoryListOf(allProducts)
    ensures forall id :: id in grouped <==> id in EntryIds(categoryList)
    ensures forall id :: id in grouped ==> grouped[id] == Group(allProducts, id)
  {
    grouped := map[];
    categoryList := [];
    var categorySet: set<string> := {};
    var i := 0;
    while i < |allProducts|
      invariant 0 <= i <= |allProducts|
      invariant categoryList == CategoryListOf(allProducts[..i])
      invariant categorySet == grouped.Keys
      invariant forall id :: id in categorySet <==> id in EntryIds(categoryList)
      invariant forall id :: id in grouped ==> grouped[id] == Group(allProducts[..i], id)
    {
      var product := allProducts[i];
      assert allProducts[..i + 1][..i] == allProducts[..i];
      if product.categoryId !in categorySet {
        assert EntryIds(categoryList + [CategoryEntry(product.categoryId, product.categoryName)]) == EntryIds(categoryList) + [product.categoryId];
        categorySet := categorySet + {product.categoryId};
        categoryList := categoryList + [CategoryEntry(product.categoryId, product.categoryName)];
      }
      if product.categoryId !in grouped {
        GroupContents(allProducts[..i], product.categoryId);
        CategoryListIsDedupe(allProducts[..i]);
        grouped := grouped[product.categoryId := []];
      }
      grouped := grouped[product.categoryId := grouped[product.categoryId] + [product]];
      i := i + 1;
    }
    assert allProducts[..i] == allProducts;
  }

  class ProductsPage {
    var filters: Filters
    var productsByCategory: map<string, seq<Product>>
    var categories: seq<CategoryEntry>

    /** The page as first rendered: no filters, so the fetch its effect makes
        on mount asks for every product. */
    constructor ()
      ensures filters == Filters("", None, None, None) && productsByCategory == map[] && categories == []
      ensures RequestFor(filters) == AllProducts
    {
      filters := Filters("", None, None, None);
      productsByCategory := map[];
      categories := [];
    }

    /** A filter input: the fetch effect re-runs only when some filter
        actually changes; setting the same filters again fetches nothing. */
    method SetFilters(f: Filters) returns (request: Option<ProductRequest>)
      modifies this`filters
      ensures filters == f
      ensures request.None? <==> f == old(filters)
      ensures request.Some? ==> (request.value.FilteredProducts? <==> UsesFilteredEndpoint(f))
      ensures request.Some? && request.value.FilteredProducts? ==> request.value.filters == f
    {
      if f == filters {
        return None;
      }
      filters := f;
      request := Some(RequestFor(f));
    }

    /** `fetchProducts` after its await: the groups and the category list are
        rebuilt from the answer; a failure is only logged. */
    method CompleteFetch(result: ApiResult<seq<Product>>)
      modifies this`productsByCategory, this`categories
      ensures result.Ok? ==> categories == CategoryListOf(result.value)
      ensures result.Ok? ==> forall id :: id in productsByCategory <==> id in EntryIds(categories)
      ensures result.Ok? ==> forall id :: id in productsByCategory ==> productsByCategory[id] == Group(result.value, id)
      ensures result.Err? ==> productsByCategory == old(productsByCategory) && categories == old(categories)
    {
      if result.Ok? {
        var grouped, categoryList := GroupProducts(result.value);
        productsByCategory := grouped;
        categories := categoryList;
      }
    }
  }
}
