/** The product card: a price label from the lowest and highest variant
    price, and a link to the product's page. The home page carries its own
    copy of the same label expression; both use the definition here. */
module ProductCard {
  import opened CatalogTypes

  /** The label shown for a product without variants. */
  const ContactText: string := "Liên hệ"

  function PricesOf(vs: seq<Variant>): (ps: seq<int>)
    ensures |ps| == |vs| && forall k :: 0 <= k < |vs| ==> ps[k] == vs[k].price
  {
    seq(|vs|, k requires 0 <= k < |vs| => vs[k].price)
  }

  /** `Math.min(...prices)` on a non-empty list. */
  function MinPrice(prices: seq<int>): (m: int)
    requires |prices| > 0
    ensures m in prices
    ensures forall k :: 0 <= k < |prices| ==> m <= prices[k]
  {
    if |prices| == 1 then prices[0]
    else
      var rest := MinPrice(prices[1..]);
      assert forall k :: 1 <= k < |prices| ==> prices[k] == prices[1..][k - 1];
      if prices[0] <= rest then prices[0] else rest
  }

  /** `Math.max(...prices)` on a non-empty list. */
  function MaxPrice(prices: seq<int>): (m: int)
    requires |prices| > 0
    ensures m in prices
    ensures forall k :: 0 <= k < |prices| ==> prices[k] <= m
  {
    if |prices| == 1 then prices[0]
    else
      var rest := MaxPrice(prices[1..]);
      assert forall k :: 1 <= k < |prices| ==> prices[k] == prices[1..][k - 1];
      if prices[0] >= rest then prices[0] else rest
  }

  /** The price label before number formatting. */
  datatype PriceLabel = Contact | SinglePrice(price: int) | PriceRange(low: int, high: int)

  /** `priceDisplay`: no variants means "contact us"; otherwise one price when
      the lowest and highest agree, and the range from lowest to highest when
      they do not. */
  function PriceLabelOf(vs: seq<Variant>): (r: PriceLabel)
    ensures r.Contact? <==> |vs| == 0
    ensures r.SinglePrice? <==> |vs| > 0 && forall k :: 0 <= k < |vs| ==> vs[k].price == vs[0].price
    ensures r.SinglePrice? ==> forall k :: 0 <= k < |vs| ==> vs[k].price == r.price
    ensures r.PriceRange? ==> r.low < r.high
    ensures r.PriceRange? ==> forall k :: 0 <= k < |vs| ==> r.low <= vs[k].price <= r.high
    ensures r.PriceRange? ==> exists i, j :: 0 <= i < |vs| && 0 <= j < |vs| && vs[i].price == r.low && vs[j].price == r.high
  {
    if |vs| == 0 then Contact
    else
      var prices := PricesOf(vs);
      var low, high := MinPrice(prices), MaxPrice(prices);
      assert forall k :: 0 <= k < |vs| ==> low <= vs[k].price <= high;
      if low == high then SinglePrice(low)
      else
        assert exists k :: 0 <= k < |vs| && vs[k].price != vs[0].price by {
          var i :| 0 <= i < |vs| && prices[i] == low;
          var j :| 0 <= j < |vs| && prices[j] == high;
          assert vs[i].price != vs[0].price || vs[j].price != vs[0].price;
        }
        PriceRange(low, high)
  }

  /** The label with every price passed through `format`, the stand-in for
      `toLocaleString`. */
  function PriceText(shown: PriceLabel, format: int -> string): (text: string)
    ensures shown.Contact? <==> text == ContactText
    ensures shown.SinglePrice? ==> text == format(shown.price) + "đ"
    ensures shown.PriceRange? ==> text == format(shown.low) + "đ - " + format(shown.high) + "đ"
  {
    match shown
    case Contact => ContactText
    case SinglePrice(p) =>
      var t := format(p) + "đ";
      assert t[|t| - 1] != ContactText[|ContactText| - 1];
      t
    case PriceRange(low, high) =>
      var t := format(low) + "đ - " + format(high) + "đ";
      assert t[|t| - 1] != ContactText[|ContactText| - 1];
      t
  }

  /** Reordering or repeating variants does not change the label: it
      depends only on the set of prices. */
  lemma PriceLabelDependsOnPriceSet(vs: seq<Variant>, ws: seq<Variant>)
    requires forall x :: x in PricesOf(vs) <==> x in PricesOf(ws)
    ensures PriceLabelOf(vs) == PriceLabelOf(ws)
  {
    var a, b := PricesOf(vs), PricesOf(ws);
    assert |vs| == 0 <==> |ws| == 0 by {
      if |ws| > 0 {
        assert b[0] in b;
      }
      if |vs| > 0 {
        assert a[0] in a;
      }
    }
    if |vs| > 0 {
      assert MinPrice(a) == MinPrice(b) by {
        var m, n := MinPrice(a), MinPrice(b);
        assert m in b && n in a;
      }
      assert MaxPrice(a) == MaxPrice(b) by {
        var m, n := MaxPrice(a), MaxPrice(b);
        assert m in b && n in a;
      }
    }
  }

  const ProductPathPrefix: string := "/product/"

  /** The card links to the product's own page. */
  function ProductLink(p: Product): (path: string)
    ensures |path| == |ProductPathPrefix| + |p.id|
    ensures path[..|ProductPathPrefix|] == ProductPathPrefix && path[|ProductPathPrefix|..] == p.id
  {
    ProductPathPrefix + p.id
  }
}
