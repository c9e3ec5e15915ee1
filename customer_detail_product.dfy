/** The product detail page: a selected variant and a quantity, changed by
    colour, size, thumbnail and quantity controls. The colour and size lists
    and the size availability are pure functions of the variant list. */
module CustomerDetailProduct {
  import opened Common
  import opened CatalogTypes

  const LoadErrorMessage: string := "Không thể tải thông tin sản phẩm. Vui lòng thử lại."

  predicate HasColorAndSize(v: Variant, color: string, size: string)
  {
    v.color == color && v.size == size
  }

  /** `variants.find(v => v.color === color && v.size === size)`, as an index. */
  function FirstWithColorAndSize(vs: seq<Variant>, color: string, size: string): (r: Option<nat>)
    ensures r.Some? ==> r.value < |vs| && HasColorAndSize(vs[r.value], color, size)
    ensures r.Some? ==> forall j :: 0 <= j < r.value ==> !HasColorAndSize(vs[j], color, size)
    ensures r.None? ==> forall j :: 0 <= j < |vs| ==> !HasColorAndSize(vs[j], color, size)
  {
    if |vs| == 0 then None
    else if HasColorAndSize(vs[0], color, size) then Some(0)
    else
      match FirstWithColorAndSize(vs[1..], color, size)
      case None => None
      case Some(k) => Some(k + 1)
  }

  /** `variants.find(v => v.color === color)`, as an index. */
  function FirstWithColor(vs: seq<Variant>, color: string): (r: Option<nat>)
    ensures r.Some? ==> r.value < |vs| && vs[r.value].color == color
    ensures r.Some? ==> forall j :: 0 <= j < r.value ==> vs[j].color != color
    ensures r.None? ==> forall j :: 0 <= j < |vs| ==> vs[j].color != color
  {
    if |vs| == 0 then None
    else if vs[0].color == color then Some(0)
    else
      match FirstWithColor(vs[1..], color)
      case None => None
      case Some(k) => Some(k + 1)
  }

  /** The variant `handleColorChange(c)` moves to, if any. */
  function ColorChoice(vs: seq<Variant>, selected: Option<Variant>, c: string): (r: Option<Variant>)
    // it always has the requested colour and comes from the product
    ensures r.Some? ==> r.value in vs && r.value.color == c
    // it exists exactly when some variant has that colour
    ensures r.None? <==> forall j :: 0 <= j < |vs| ==> vs[j].color != c
    // the current size is kept whenever the new colour comes in that size
    ensures selected.Some? && (exists j :: 0 <= j < |vs| && HasColorAndSize(vs[j], c, selected.value.size))
            ==> r.Some? && r.value.size == selected.value.size
    // when it keeps the size, it is the first variant with that colour and size
    ensures r.Some? && selected.Some? && r.value.size == selected.value.size
            ==> exists k :: 0 <= k < |vs| && vs[k] == r.value && forall j :: 0 <= j < k ==> !HasColorAndSize(vs[j], c, selected.value.size)
    // otherwise it is the first variant of that colour
    ensures r.Some? && (selected.None? || r.value.size != selected.value.size)
            ==> exists k :: 0 <= k < |vs| && vs[k] == r.value && forall j :: 0 <= j < k ==> vs[j].color != c
  {
    var exact := if selected.Some? then FirstWithColorAndSize(vs, c, selected.value.size) else None;
    if exact.Some? then Some(vs[exact.value])
    else
      match FirstWithColor(vs, c)
      case None => None
      case Some(k) => Some(vs[k])
  }

  /** `isAvailable` of a size button: some variant has the selected colour and that size. */
  predicate SizeIsAvailable(vs: seq<Variant>, selected: Option<Variant>, size: string)
    ensures SizeIsAvailable(vs, selected, size) <==> selected.Some? && FirstWithColorAndSize(vs, selected.value.color, size).Some?
  {
    selected.Some? && exists v :: v in vs && HasColorAndSize(v, selected.value.color, size)
  }

  /** The variant `handleSizeChange(size)` moves to, if any: only within the selected colour. */
  function SizeChoice(vs: seq<Variant>, selected: Option<Variant>, size: string): (r: Option<Variant>)
    ensures r.Some? ==> r.value in vs && r.value.size == size
    ensures r.Some? ==> selected.Some? && r.value.color == selected.value.color
    ensures r.Some? <==> SizeIsAvailable(vs, selected, size)
    // it is the first variant of the selected colour in that size
    ensures r.Some? ==> exists k :: 0 <= k < |vs| && vs[k] == r.value && forall j :: 0 <= j < k ==> !HasColorAndSize(vs[j], selected.value.color, size)
  {
    if selected.None? then None
    else
      match FirstWithColorAndSize(vs, selected.value.color, size)
      case None => None
      case Some(k) => Some(vs[k])
  }

  /** The quantity after `handleQuantityChange(amount)` with a variant selected. */
  function QuantityAfterStep(q: int, amount: int, stock: int): (r: int)
    // a step is taken whole or not at all: the quantity never saturates at a bound
    ensures r == q + amount || r == q
    ensures r == q + amount <==> (0 < q + amount <= stock) || amount == 0
    // a quantity within [1, stock] stays within [1, stock]
    ensures 1 <= q <= stock ==> 1 <= r <= stock
  {
    var next := q + amount;
    if 0 < next <= stock then next else q
  }

  /** At the bounds the + and - steps do nothing. */
  lemma StepsStopAtBounds(stock: int)
    requires stock >= 1
    ensures QuantityAfterStep(stock, 1, stock) == stock
    ensures QuantityAfterStep(1, -1, stock) == 1
  {
  }

  function Colors(vs: seq<Variant>): (r: seq<string>)
    ensures |r| == |vs| && forall i :: 0 <= i < |vs| ==> r[i] == vs[i].color
  {
    seq(|vs|, i requires 0 <= i < |vs| => vs[i].color)
  }

  function Sizes(vs: seq<Variant>): (r: seq<string>)
    ensures |r| == |vs| && forall i :: 0 <= i < |vs| ==> r[i] == vs[i].size
  {
    seq(|vs|, i requires 0 <= i < |vs| => vs[i].size)
  }

  /** `uniqueColors`: each colour of the product once, in first-occurrence order. */
  function UniqueColors(product: Option<Product>): (r: seq<string>)
    ensures NoDuplicates(r)
    ensures product.None? ==> r == []
    ensures product.Some? ==> forall c :: c in r <==> exists v :: v in product.value.variants && v.color == c
  {
    if product.None? then []
    else
      var vs := product.value.variants;
      assert forall c :: c in Colors(vs) <==> exists v :: v in vs && v.color == c by {
        forall c | c in Colors(vs) ensures exists v :: v in vs && v.color == c {
          var i :| 0 <= i < |vs| && Colors(vs)[i] == c;
          assert vs[i] in vs;
        }
      }
      Dedupe(Colors(vs))
  }

  /** `uniqueSizes`: each size of the product once, in first-occurrence order. */
  function UniqueSizes(product: Option<Product>): (r: seq<string>)
    ensures NoDuplicates(r)
    ensures product.None? ==> r == []
    ensures product.Some? ==> forall s :: s in r <==> exists v :: v in product.value.variants && v.size == s
  {
    if product.None? then []
    else
      var vs := product.value.variants;
      assert forall s :: s in Sizes(vs) <==> exists v :: v in vs && v.size == s by {
        forall s | s in Sizes(vs) ensures exists v :: v in vs && v.size == s {
          var i :| 0 <= i < |vs| && Sizes(vs)[i] == s;
          assert vs[i] in vs;
        }
      }
      Dedupe(Sizes(vs))
  }

  /** The colours are listed in the order of their first variant. */
  lemma UniqueColorsOrder(p: Product, i: nat, j: nat)
    requires i < j < |UniqueColors(Some(p))|
    ensures UniqueColors(Some(p))[i] in Colors(p.variants) && UniqueColors(Some(p))[j] in Colors(p.variants)
    ensures FirstIndex(Colors(p.variants), UniqueColors(Some(p))[i]) < FirstIndex(Colors(p.variants), UniqueColors(Some(p))[j])
  {
    DedupeKeepsFirstOccurrenceOrder(Colors(p.variants), i, j);
  }

  /** The sizes are listed in the order of their first variant. */
  lemma UniqueSizesOrder(p: Product, i: nat, j: nat)
    requires i < j < |UniqueSizes(Some(p))|
    ensures UniqueSizes(Some(p))[i] in Sizes(p.variants) && UniqueSizes(Some(p))[j] in Sizes(p.variants)
    ensures FirstIndex(Sizes(p.variants), UniqueSizes(Some(p))[i]) < FirstIndex(Sizes(p.variants), UniqueSizes(Some(p))[j])
  {
    DedupeKeepsFirstOccurrenceOrder(Sizes(p.variants), i, j);
  }

  /** The add-to-cart button is enabled iff a variant is selected and it has stock. */
  predicate CanAddToCart(selected: Option<Variant>)
    ensures CanAddToCart(selected) ==> selected.Some? && selected.value.stockQuantity > 0
  {
    selected.Some? && selected.value.stockQuantity >= 1
  }

  /** The page state. */
  class DetailPage {
    var product: Option<Product>
    var selectedVariant: Option<Variant>
    var quantity: int
    var isLoading: bool
    var error: Option<string>

    /** Every handler keeps the quantity positive. */
    ghost predicate Valid()
      reads this
    {
      quantity >= 1
    }

    function Variants(): seq<Variant>
      reads this
    {
      if product.Some? then product.value.variants else []
    }

    constructor ()
      ensures Valid()
      ensures product.None? && selectedVariant.None? && quantity == 1
      ensures isLoading && error.None?
    {
      product := None;
      selectedVariant := None;
      quantity := 1;
      isLoading := true;
      error := None;
    }

    /** The load effect up to its await: without a route id nothing is fetched. */
    method BeginLoad(id: Option<string>) returns (fetch: bool)
      requires Valid()
      modifies this
      ensures Valid()
      ensures fetch <==> Truthy(id)
      ensures fetch ==> isLoading && error.None?
      ensures !fetch ==> isLoading == old(isLoading) && error == old(error)
      ensures product == old(product) && selectedVariant == old(selectedVariant) && quantity == old(quantity)
    {
      fetch := Truthy(id);
      if fetch {
        isLoading := true;
        error := None;
      }
    }

    /** The load effect after its await: the first variant becomes the default selection. */
    method CompleteLoad(result: ApiResult<Option<Product>>)
      requires Valid()
      modifies this
      ensures Valid()
      ensures !isLoading && quantity == old(quantity)
      ensures result.Ok? ==> product == result.value && error == old(error)
      ensures result.Ok? && result.value.Some? && |result.value.value.variants| > 0
              ==> selectedVariant == Some(result.value.value.variants[0])
      ensures !(result.Ok? && result.value.Some? && |result.value.value.variants| > 0)
              ==> selectedVariant == old(selectedVariant)
      ensures result.Err? ==> product == old(product) && error == Some(LoadErrorMessage)
    {
      match result {
        case Ok(data) =>
          product := data;
          if data.Some? && |data.value.variants| > 0 {
            selectedVariant := Some(data.value.variants[0]);
          }
        case Err(_) =>
          error := Some(LoadErrorMessage);
      }
      isLoading := false;
    }

    /** `handleColorChange(c)`. */
    method ColorChange(c: string)
      requires Valid()
      modifies this
      ensures Valid()
      ensures product == old(product) && isLoading == old(isLoading) && error == old(error)
      ensures var choice := ColorChoice(old(Variants()), old(selectedVariant), c);
              if choice.Some? then selectedVariant == choice && quantity == 1
              else selectedVariant == old(selectedVariant) && quantity == old(quantity)
    {
      var choice := ColorChoice(Variants(), selectedVariant, c);
      if choice.Some? {
        selectedVariant := choice;
        quantity := 1;
      }
    }

    /** `handleSizeChange(size)`: the selected colour never changes. */
    method SizeChange(size: string)
      requires Valid()
      modifies this
      ensures Valid()
      ensures product == old(product) && isLoading == old(isLoading) && error == old(error)
      ensures var choice := SizeChoice(old(Variants()), old(selectedVariant), size);
              if choice.Some? then selectedVariant == choice && quantity == 1
              else selectedVariant == old(selectedVariant) && quantity == old(quantity)
      ensures selectedVariant.Some? && old(selectedVariant).Some? ==> selectedVariant.value.color == old(selectedVariant).value.color
    {
      var choice := SizeChoice(Variants(), selectedVariant, size);
      if choice.Some? {
        selectedVariant := choice;
        quantity := 1;
      }
    }

    /** Clicking the thumbnail of a variant selects it and leaves the quantity as it is. */
    method SelectThumbnail(i: nat)
      requires Valid() && i < |Variants()|
      modifies this`selectedVariant
      ensures Valid()
      ensures selectedVariant == Some(Variants()[i])
    {
      selectedVariant := Some(Variants()[i]);
    }

    /** `handleQuantityChange(amount)`. */
    method QuantityChange(amount: int)
      requires Valid()
      modifies this`quantity
      ensures Valid()
      ensures old(selectedVariant).None? ==> quantity == old(quantity)
      ensures old(selectedVariant).Some?
              ==> quantity == QuantityAfterStep(old(quantity), amount, selectedVariant.value.stockQuantity)
    {
      if selectedVariant.None? {
        return;
      }
      var next := quantity + amount;
      if next > 0 && next <= selectedVariant.value.stockQuantity {
        quantity := next;
      }
    }
  }

  /** Scenario: with variants (Black, M, 2), (Black, L, 0), (White, M, 5) and
      (Black, L) selected, choosing White moves to (White, M), the first White
      variant, because White has no L. */
  method ColorFallbackScenario() returns (selected: Option<Variant>, quantity: int)
    ensures selected == Some(Variant("v3", "White", "M", 100, 5, ""))
    ensures quantity == 1
  {
    var page := new DetailPage();
    var vs := [Variant("v1", "Black", "M", 100, 2, ""), Variant("v2", "Black", "L", 100, 0, ""),
               Variant("v3", "White", "M", 100, 5, "")];
    page.CompleteLoad(Ok(Some(Product("p", "Shirt", "", "", "c", "Shirts", vs))));
    page.SelectThumbnail(1);
    assert page.selectedVariant == Some(vs[1]);
    page.ColorChange("White");
    selected := page.selectedVariant;
    quantity := page.quantity;
  }
}
