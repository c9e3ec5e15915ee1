/** The home page: every fetched product in the featured grid, and the
    first four, newest-last reversed, under "new arrivals". Each card uses
    the price label of `ProductCard`. */
module HomePage {
  import opened Common
  import opened CatalogTypes
  import opened ProductCard

  /** Sequence reversal, the reference for `reverse()`. */
  function Reversed<T>(s: seq<T>): (r: seq<T>)
    ensures |r| == |s|
    ensures forall k :: 0 <= k < |s| ==> r[k] == s[|s| - 1 - k]
  {
    if |s| == 0 then []
    else
      var rest := Reversed(s[1..]);
      assert forall k :: 0 <= k < |rest| ==> rest[k] == s[|s| - 1 - k];
      rest + [s[0]]
  }

  /** Reversing twice gives the list back. */
  lemma ReversedTwice<T>(s: seq<T>)
    ensures Reversed(Reversed(s)) == s
  {
  }

  const NewArrivalsCount: nat := 4

  /** `products.slice(0, 4).reverse()`. */
  function NewArrivals(products: seq<Product>): (r: seq<Product>)
    ensures |r| == if |products| < NewArrivalsCount then |products| else NewArrivalsCount
    ensures forall k :: 0 <= k < |r| ==> r[k] == products[|r| - 1 - k]
  {
    var n := if |products| < NewArrivalsCount then |products| else NewArrivalsCount;
    Reversed(products[..n])
  }

  /** Reversing the new arrivals gives back the head of the fetched list. */
  lemma NewArrivalsAreTheFirstFour(products: seq<Product>)
    requires |products| >= NewArrivalsCount
    ensures Reversed(NewArrivals(products)) == products[..NewArrivalsCount]
  {
    ReversedTwice(products[..NewArrivalsCount]);
  }

  /** A card as the home grid renders it. */
  datatype Card = Card(id: string, name: string, price: PriceLabel)

  function CardOf(p: Product): Card
  {
    Card(p.id, p.name, PriceLabelOf(p.variants))
  }

  /** The featured grid: one card per product, in fetch order. */
  function FeaturedCards(products: seq<Product>): (cards: seq<Card>)
    ensures |cards| == |products|
    ensures forall k :: 0 <= k < |products| ==> cards[k].id == products[k].id && cards[k].price == PriceLabelOf(products[k].variants)
  {
    seq(|products|, k requires 0 <= k < |products| => CardOf(products[k]))
  }

  class HomePageState {
    var products: seq<Product>

    constructor ()
      ensures products == []
    {
      products := [];
    }

    /** The fetch effect after its await; a failure is only logged. */
    method CompleteFetch(result: ApiResult<seq<Product>>)
      modifies this`products
      ensures result.Ok? ==> products == result.value
      ensures result.Err? ==> products == old(products)
    {
      if result.Ok? {
        products := result.value;
      }
    }
  }

  /** Scenario: after a failed fetch both grids are empty; after a fetch of
      five products, the new arrivals are the fourth to the first. */
  method FetchScenario(a: Product, b: Product, c: Product, d: Product, e: Product) returns (failedGrid: seq<Card>, arrivals: seq<Product>)
    ensures failedGrid == []
    ensures arrivals == [d, c, b, a]
  {
    var page := new HomePageState();
    page.CompleteFetch(Err(None));
    failedGrid := FeaturedCards(page.products);
    page.CompleteFetch(Ok([a, b, c, d, e]));
    arrivals := NewArrivals(page.products);
  }
}
