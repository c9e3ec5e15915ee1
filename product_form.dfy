/** The operator's product editor. Its variant list is edited through a
    single variant form: selecting a row loads it into the form for editing,
    saving either overwrites the row being edited or appends a new one, and
    submitting flattens the product and its variants into multipart form
    entries with keys such as `Variants[2].Color`. */
module ProductForm {
  import opened Common
  import opened CatalogTypes
  import opened CategoryTypes

  /** A file picked in a file input; any picked file is truthy. */
  datatype FileRef = FileRef(name: string)

  /** One variant as held by the form and by the product's variant list. */
  datatype VariantForm = VariantForm(
    id: string,
    color: string,
    size: string,
    price: int,
    stockQuantity: int,
    imageFile: Option<FileRef>,
    imageUrl: string)

  /** The blank variant form. */
  const EmptyVariantForm: VariantForm := VariantForm("", "", "", 0, 0, None, "")

  /** The product part of the form. */
  datatype ProductData = ProductData(
    name: string,
    description: string,
    categoryId: string,
    imageFile: Option<FileRef>,
    variants: seq<VariantForm>)

  /** A variant received with the product being edited: it has no picked file. */
  function FromVariant(v: Variant): (f: VariantForm)
    ensures f.imageFile.None?
    ensures f.id == v.id && f.color == v.color && f.size == v.size
    ensures f.price == v.price && f.stockQuantity == v.stockQuantity && f.imageUrl == v.imageUrl
  {
    VariantForm(v.id, v.color, v.size, v.price, v.stockQuantity, None, v.imageUrl)
  }

  // ---------------------------------------------------------------------
  // The multipart encoding
  // ---------------------------------------------------------------------

  /** The per-variant fields of the body. */
  datatype VariantField = Id | Color | Size | Price | StockQuantity | ImageFile | ImageUrl

  function FieldName(f: VariantField): string
  {
    match f
    case Id => "Id"
    case Color => "Color"
    case Size => "Size"
    case Price => "Price"
    case StockQuantity => "StockQuantity"
    case ImageFile => "ImageFile"
    case ImageUrl => "ImageUrl"
  }

  /** A key of the multipart body, before it is written out by `KeyText`. */
  datatype FormKey =
    | NameKey | DescriptionKey | CategoryIdKey | CategoryNameKey | ImageFileKey
    | VariantKey(index: nat, field: VariantField)

  /** The key as it is passed to `fd.append`; a variant key is
      `Variants[${index}].${field}`. */
  function KeyText(k: FormKey): string
  {
    match k
    case NameKey => "Name"
    case DescriptionKey => "Description"
    case CategoryIdKey => "CategoryId"
    case CategoryNameKey => "CategoryName"
    case ImageFileKey => "ImageFile"
    case VariantKey(i, f) => "Variants[" + NatToString(i) + "]." + FieldName(f)
  }

  /** The position of the first `]` in `s`, or `|s|` when there is none. */
  function BracketIndex(s: string): nat
  {
    if |s| == 0 then 0 else if s[0] == ']' then 0 else 1 + BracketIndex(s[1..])
  }

  /** A run of digits followed by `]` has its first `]` right after the run. */
  lemma {:induction false} BracketIndexAfterDigits(a: string, rest: string)
    requires forall k :: 0 <= k < |a| ==> IsDigit(a[k])
    requires |rest| > 0 && rest[0] == ']'
    ensures BracketIndex(a + rest) == |a|
  {
    if |a| > 0 {
      assert (a + rest)[1..] == a[1..] + rest;
      BracketIndexAfterDigits(a[1..], rest);
    }
  }

  /** Two keys `Variants[a].s` and `Variants[b].t` with digit strings `a`
      and `b` agree only when `a == b` and `s == t`: the numeral ends at the
      first `]`, which no digit can be. */
  lemma IndexedKeySplit(a: string, s: string, b: string, t: string)
    requires IsDigits(a) && IsDigits(b)
    requires "Variants[" + a + "]." + s == "Variants[" + b + "]." + t
    ensures a == b && s == t
  {
    var p := "Variants[";
    var x := a + ("]." + s);
    var y := b + ("]." + t);
    assert p + a + "]." + s == p + x;
    assert p + b + "]." + t == p + y;
    assert x == (p + x)[|p|..];
    assert y == (p + y)[|p|..];
    BracketIndexAfterDigits(a, "]." + s);
    BracketIndexAfterDigits(b, "]." + t);
    assert a == x[..|a|] && b == y[..|b|];
    assert s == x[|a| + 2..] && t == y[|b| + 2..];
  }

  lemma FieldNameInjective(f: VariantField, g: VariantField)
    ensures FieldName(f) == FieldName(g) ==> f == g
  {
  }

  /** Distinct keys are written out as distinct strings. */
  lemma KeyTextInjective(k: FormKey, l: FormKey)
    ensures KeyText(k) == KeyText(l) ==> k == l
  {
    if KeyText(k) == KeyText(l) {
      if k.VariantKey? && l.VariantKey? {
        IndexedKeySplit(NatToString(k.index), FieldName(k.field), NatToString(l.index), FieldName(l.field));
        NatToStringInjective(k.index, l.index);
        FieldNameInjective(k.field, l.field);
      } else if k.VariantKey? || l.VariantKey? {
        assert KeyText(k)[0] == KeyText(l)[0];
      }
    }
  }

  datatype EntryValue = Text(text: string) | File(file: FileRef)

  /** One `fd.append(key, value)`. */
  datatype Entry = Entry(key: FormKey, value: EntryValue)

  function Keys(fd: seq<Entry>): (ks: seq<FormKey>)
    ensures |ks| == |fd| && forall k :: 0 <= k < |fd| ==> ks[k] == fd[k].key
  {
    seq(|fd|, k requires 0 <= k < |fd| => fd[k].key)
  }

  /** The keys exactly as they are sent. */
  function KeyTexts(fd: seq<Entry>): (ks: seq<string>)
    ensures |ks| == |fd| && forall k :: 0 <= k < |fd| ==> ks[k] == KeyText(fd[k].key)
  {
    seq(|fd|, k requires 0 <= k < |fd| => KeyText(fd[k].key))
  }

  predicate HasKey(fd: seq<Entry>, key: FormKey)
  {
    key in Keys(fd)
  }

  lemma KeysOfConcat(a: seq<Entry>, b: seq<Entry>)
    ensures Keys(a + b) == Keys(a) + Keys(b)
  {
  }

  /** The fields one variant sends, in the order they are appended: the id
      only when non-empty, the four required fields, then a picked file or,
      failing that, a non-empty stored image URL. */
  function PresentFields(v: VariantForm): seq<VariantField>
  {
    (if v.id != "" then [Id] else []) + [Color, Size, Price, StockQuantity]
    + (if v.imageFile.Some? then [ImageFile] else if v.imageUrl != "" then [ImageUrl] else [])
  }

  /** The entries one `forEach` step appends for the variant at position `i`. */
  function VariantEntries(v: VariantForm, i: nat): seq<Entry>
  {
    (if v.id != "" then [Entry(VariantKey(i, Id), Text(v.id))] else [])
    + [Entry(VariantKey(i, Color), Text(v.color)), Entry(VariantKey(i, Size), Text(v.size)),
       Entry(VariantKey(i, Price), Text(IntToString(v.price))),
       Entry(VariantKey(i, StockQuantity), Text(IntToString(v.stockQuantity)))]
    + (if v.imageFile.Some? then [Entry(VariantKey(i, ImageFile), File(v.imageFile.value))]
       else if v.imageUrl != "" then [Entry(VariantKey(i, ImageUrl), Text(v.imageUrl))]
       else [])
  }

  /** The keys of one variant's entries are its index paired with the fields it sends. */
  lemma VariantEntriesKeys(v: VariantForm, i: nat)
    ensures |VariantEntries(v, i)| == |PresentFields(v)|
    ensures forall k :: 0 <= k < |PresentFields(v)| ==> VariantEntries(v, i)[k].key == VariantKey(i, PresentFields(v)[k])
  {
  }

  /** A variant never sends a field twice. */
  lemma PresentFieldsDistinct(v: VariantForm)
    ensures NoDuplicates(PresentFields(v))
  {
  }

  /** Every variant sends its colour, size, price and stock. */
  lemma RequiredFieldsSent(v: VariantForm, i: nat)
    ensures Entry(VariantKey(i, Color), Text(v.color)) in VariantEntries(v, i)
    ensures Entry(VariantKey(i, Size), Text(v.size)) in VariantEntries(v, i)
    ensures Entry(VariantKey(i, Price), Text(IntToString(v.price))) in VariantEntries(v, i)
    ensures Entry(VariantKey(i, StockQuantity), Text(IntToString(v.stockQuantity))) in VariantEntries(v, i)
  {
    var r := VariantEntries(v, i);
    var o := if v.id != "" then 1 else 0;
    assert r[o] == Entry(VariantKey(i, Color), Text(v.color));
    assert r[o + 1] == Entry(VariantKey(i, Size), Text(v.size));
    assert r[o + 2] == Entry(VariantKey(i, Price), Text(IntToString(v.price)));
    assert r[o + 3] == Entry(VariantKey(i, StockQuantity), Text(IntToString(v.stockQuantity)));
  }

  /** The id is sent exactly when it is non-empty, and at most one image
      entry is sent, the picked file taking precedence over the stored URL. */
  lemma OptionalFieldsSent(v: VariantForm, i: nat)
    ensures HasKey(VariantEntries(v, i), VariantKey(i, Id)) <==> v.id != ""
    ensures HasKey(VariantEntries(v, i), VariantKey(i, ImageFile)) <==> v.imageFile.Some?
    ensures HasKey(VariantEntries(v, i), VariantKey(i, ImageUrl)) <==> v.imageFile.None? && v.imageUrl != ""
    ensures !(HasKey(VariantEntries(v, i), VariantKey(i, ImageFile)) && HasKey(VariantEntries(v, i), VariantKey(i, ImageUrl)))
  {
    assert Keys(VariantEntries(v, i)) ==
      (if v.id != "" then [VariantKey(i, Id)] else [])
      + [VariantKey(i, Color), VariantKey(i, Size), VariantKey(i, Price), VariantKey(i, StockQuantity)]
      + (if v.imageFile.Some? then [VariantKey(i, ImageFile)] else if v.imageUrl != "" then [VariantKey(i, ImageUrl)] else []);
  }

  /** The entries of the whole variant list, variant by variant. */
  function VariantListEntries(vs: seq<VariantForm>): seq<Entry>
  {
    if |vs| == 0 then []
    else VariantListEntries(vs[..|vs| - 1]) + VariantEntries(vs[|vs| - 1], |vs| - 1)
  }

  /** Every key of the variant list's entries is a variant key for one of its positions. */
  lemma {:induction false} VariantListKeysBelong(vs: seq<VariantForm>)
    ensures forall k :: k in Keys(VariantListEntries(vs)) ==> k.VariantKey? && k.index < |vs|
  {
    if |vs| > 0 {
      var n := |vs|;
      VariantListKeysBelong(vs[..n - 1]);
      KeysOfConcat(VariantListEntries(vs[..n - 1]), VariantEntries(vs[n - 1], n - 1));
      VariantEntriesKeys(vs[n - 1], n - 1);
    }
  }

  /** No key is appended twice by the variant list. */
  lemma {:induction false} VariantListKeysUnique(vs: seq<VariantForm>)
    ensures NoDuplicates(Keys(VariantListEntries(vs)))
  {
    var n := |vs|;
    if n > 0 {
      var front := VariantListEntries(vs[..n - 1]);
      var last := VariantEntries(vs[n - 1], n - 1);
      VariantListKeysUnique(vs[..n - 1]);
      VariantListKeysBelong(vs[..n - 1]);
      KeysOfConcat(front, last);
      VariantEntriesKeys(vs[n - 1], n - 1);
      PresentFieldsDistinct(vs[n - 1]);
      assert forall a :: 0 <= a < |front| ==> Keys(front)[a] in Keys(front);
    }
  }

  /** The variant at position `i` has all its entries in the list encoding. */
  lemma {:induction false} VariantListEntriesContain(vs: seq<VariantForm>, i: nat)
    requires i < |vs|
    ensures forall e :: e in VariantEntries(vs[i], i) ==> e in VariantListEntries(vs)
  {
    var n := |vs|;
    if i < n - 1 {
      VariantListEntriesContain(vs[..n - 1], i);
      assert vs[..n - 1][i] == vs[i];
    }
  }

  /** A key of variant `i` among the list's entries comes from that variant's own block. */
  lemma {:induction false} OnlyOwnBlockHasKey(vs: seq<VariantForm>, i: nat, f: VariantField)
    requires i < |vs| && HasKey(VariantListEntries(vs), VariantKey(i, f))
    ensures HasKey(VariantEntries(vs[i], i), VariantKey(i, f))
  {
    var n := |vs|;
    var front := VariantListEntries(vs[..n - 1]);
    var last := VariantEntries(vs[n - 1], n - 1);
    KeysOfConcat(front, last);
    VariantListKeysBelong(vs[..n - 1]);
    VariantEntriesKeys(vs[n - 1], n - 1);
    if i < n - 1 {
      if HasKey(front, VariantKey(i, f)) {
        OnlyOwnBlockHasKey(vs[..n - 1], i, f);
        assert vs[..n - 1][i] == vs[i];
      }
    }
  }

  /** `categories.find(c => c.id === id)`: the first category with that id. */
  function FindCategory(categories: seq<Category>, id: string): (r: Option<Category>)
    ensures r.None? <==> forall k :: 0 <= k < |categories| ==> categories[k].id != id
    ensures r.Some? ==> exists k :: 0 <= k < |categories| && categories[k] == r.value && r.value.id == id
                                    && forall j :: 0 <= j < k ==> categories[j].id != id
  {
    if |categories| == 0 then None
    else if categories[0].id == id then Some(categories[0])
    else
      var r := FindCategory(categories[1..], id);
      if r.Some? then
        ghost var k :| 0 <= k < |categories| - 1 && categories[1..][k] == r.value && r.value.id == id
                       && forall j :: 0 <= j < k ==> categories[1..][j].id != id;
        assert categories[k + 1] == r.value;
        assert forall j :: 0 <= j < k + 1 ==> categories[j].id != id by {
          forall j | 0 <= j < k + 1 ensures categories[j].id != id {
            if j > 0 {
              assert categories[j] == categories[1..][j - 1];
            }
          }
        }
        r
      else r
  }

  /** The product-level entries: name, description and category id always,
      the category's name when the id is found, and a picked product image. */
  function HeaderEntries(form: ProductData, categories: seq<Category>): seq<Entry>
  {
    var category := FindCategory(categories, form.categoryId);
    [Entry(NameKey, Text(form.name)), Entry(DescriptionKey, Text(form.description)), Entry(CategoryIdKey, Text(form.categoryId))]
    + (if category.Some? then [Entry(CategoryNameKey, Text(category.value.name))] else [])
    + (if form.imageFile.Some? then [Entry(ImageFileKey, File(form.imageFile.value))] else [])
  }

  lemma HeaderKeys(form: ProductData, categories: seq<Category>)
    ensures Keys(HeaderEntries(form, categories)) ==
      [NameKey, DescriptionKey, CategoryIdKey]
      + (if FindCategory(categories, form.categoryId).Some? then [CategoryNameKey] else [])
      + (if form.imageFile.Some? then [ImageFileKey] else [])
  {
  }

  /** The whole multipart body `handleSubmit` builds. */
  function ProductEntries(form: ProductData, categories: seq<Category>): seq<Entry>
  {
    HeaderEntries(form, categories) + VariantListEntries(form.variants)
  }

  /** The body's header: the three required entries lead, and the optional
      ones appear exactly when their condition holds. */
  lemma HeaderEntriesContent(form: ProductData, categories: seq<Category>)
    ensures ProductEntries(form, categories)[..3] ==
      [Entry(NameKey, Text(form.name)), Entry(DescriptionKey, Text(form.description)), Entry(CategoryIdKey, Text(form.categoryId))]
    ensures HasKey(ProductEntries(form, categories), CategoryNameKey) <==> exists k :: 0 <= k < |categories| && categories[k].id == form.categoryId
    ensures HasKey(ProductEntries(form, categories), ImageFileKey) <==> form.imageFile.Some?
  {
    var h := HeaderEntries(form, categories);
    var v := VariantListEntries(form.variants);
    assert ProductEntries(form, categories)[..3] == h[..3];
    KeysOfConcat(h, v);
    HeaderKeys(form, categories);
    VariantListKeysBelong(form.variants);
    assert CategoryNameKey !in Keys(v) && ImageFileKey !in Keys(v);
    var category := FindCategory(categories, form.categoryId);
    assert CategoryNameKey in Keys(h) <==> category.Some?;
    assert ImageFileKey in Keys(h) <==> form.imageFile.Some?;
  }

  /** No key of the multipart body is sent twice, whether compared as keys
      or as the strings written out; and every variant's colour and size are
      in it. */
  lemma ProductEntriesKeysUnique(form: ProductData, categories: seq<Category>)
    ensures NoDuplicates(Keys(ProductEntries(form, categories)))
    ensures NoDuplicates(KeyTexts(ProductEntries(form, categories)))
    ensures forall i :: 0 <= i < |form.variants| ==>
      Entry(VariantKey(i, Color), Text(form.variants[i].color)) in ProductEntries(form, categories) &&
      Entry(VariantKey(i, Size), Text(form.variants[i].size)) in ProductEntries(form, categories)
  {
    var h := HeaderEntries(form, categories);
    var v := VariantListEntries(form.variants);
    var all := h + v;
    KeysOfConcat(h, v);
    HeaderKeys(form, categories);
    VariantListKeysUnique(form.variants);
    VariantListKeysBelong(form.variants);
    assert forall a :: 0 <= a < |v| ==> Keys(v)[a] in Keys(v);
    assert NoDuplicates(Keys(all));
    forall a, b | 0 <= a < b < |all|
      ensures KeyTexts(all)[a] != KeyTexts(all)[b]
    {
      KeyTextInjective(all[a].key, all[b].key);
      assert Keys(all)[a] != Keys(all)[b];
    }
    forall i | 0 <= i < |form.variants|
      ensures Entry(VariantKey(i, Color), Text(form.variants[i].color)) in all
      ensures Entry(VariantKey(i, Size), Text(form.variants[i].size)) in all
    {
      RequiredFieldsSent(form.variants[i], i);
      VariantListEntriesContain(form.variants, i);
    }
  }

  /** A variant's id is sent exactly when it is non-empty, and a variant never
      sends both an image file and an image URL. */
  lemma ProductEntriesVariantOptionals(form: ProductData, categories: seq<Category>, i: nat)
    requires i < |form.variants|
    ensures HasKey(ProductEntries(form, categories), VariantKey(i, Id)) <==> form.variants[i].id != ""
    ensures HasKey(ProductEntries(form, categories), VariantKey(i, ImageFile)) <==> form.variants[i].imageFile.Some?
    ensures !(HasKey(ProductEntries(form, categories), VariantKey(i, ImageFile)) &&
              HasKey(ProductEntries(form, categories), VariantKey(i, ImageUrl)))
  {
    var h := HeaderEntries(form, categories);
    var v := VariantListEntries(form.variants);
    var w := form.variants[i];
    KeysOfConcat(h, v);
    HeaderKeys(form, categories);
    OptionalFieldsSent(w, i);
    VariantListEntriesContain(form.variants, i);
    forall f: VariantField
      ensures HasKey(h + v, VariantKey(i, f)) <==> HasKey(VariantEntries(w, i), VariantKey(i, f))
    {
      var key := VariantKey(i, f);
      if HasKey(VariantEntries(w, i), key) {
        var k :| 0 <= k < |VariantEntries(w, i)| && Keys(VariantEntries(w, i))[k] == key;
        assert VariantEntries(w, i)[k] in v;
        assert Keys(v)[IndexOf(v, VariantEntries(w, i)[k])] == key;
      }
      if HasKey(h + v, key) {
        assert HasKey(v, key);
        OnlyOwnBlockHasKey(form.variants, i, f);
      }
    }
  }

  /** The position of an entry in a body that holds it. */
  function IndexOf(fd: seq<Entry>, e: Entry): (k: nat)
    requires e in fd
    ensures k < |fd| && fd[k] == e
  {
    if fd[0] == e then 0 else 1 + IndexOf(fd[1..], e)
  }

  // ---------------------------------------------------------------------
  // The form
  // ---------------------------------------------------------------------

  /** The alert shown when a variant is saved without colour or size. */
  const VariantIncompleteAlert: string := "Vui lòng nhập đủ thông tin biến thể"
  /** The alert shown when the product is submitted without name or category. */
  const ProductIncompleteAlert: string := "Vui lòng nhập tên sản phẩm và chọn danh mục"

  class ProductFormView {
    var formData: ProductData
    var variantForm: VariantForm
    var editingIndex: Option<nat>

    /** The row being edited exists: rows are only selected from the list,
        and the list never shrinks. */
    predicate Valid()
      reads this
    {
      editingIndex.Some? ==> editingIndex.value < |formData.variants|
    }

    /** The initial state, from the product being edited if there is one. */
    constructor (initial: Option<Product>)
      ensures Valid() && editingIndex.None? && variantForm == EmptyVariantForm
      ensures initial.None? ==> formData == ProductData("", "", "", None, [])
      ensures initial.Some? ==> formData.name == initial.value.name && formData.description == initial.value.description
      ensures initial.Some? ==> formData.categoryId == initial.value.categoryId && formData.imageFile.None?
      ensures initial.Some? ==> |formData.variants| == |initial.value.variants|
      ensures initial.Some? ==> forall k :: 0 <= k < |formData.variants| ==> formData.variants[k] == FromVariant(initial.value.variants[k])
    {
      match initial {
        case None =>
          formData := ProductData("", "", "", None, []);
        case Some(p) =>
          formData := ProductData(p.name, p.description, p.categoryId, None,
            seq(|p.variants|, k requires 0 <= k < |p.variants| => FromVariant(p.variants[k])));
      }
      variantForm := EmptyVariantForm;
      editingIndex := None;
    }

    /** The product inputs: name, description, category and image. */
    method EditProduct(name: string, description: string, categoryId: string, imageFile: Option<FileRef>)
      modifies this`formData
      ensures formData == old(formData).(name := name, description := description, categoryId := categoryId, imageFile := imageFile)
    {
      formData := formData.(name := name, description := description, categoryId := categoryId, imageFile := imageFile);
    }

    /** The variant inputs. */
    method EditVariantForm(f: VariantForm)
      modifies this`variantForm
      ensures variantForm == f
    {
      variantForm := f;
    }

    /** `handleSelectVariant(v, index)`: the row is loaded into the form,
        without a picked file, and marked as the one being edited. */
    method SelectVariant(index: nat)
      requires index < |formData.variants|
      modifies this`variantForm, this`editingIndex
      ensures Valid()
      ensures variantForm == formData.variants[index].(imageFile := None)
      ensures editingIndex == Some(index)
    {
      variantForm := formData.variants[index].(imageFile := None);
      editingIndex := Some(index);
    }

    /** `handleAddOrUpdateVariant`. Without colour or size only an alert is
        raised. Otherwise the row being edited is overwritten, or the form is
        appended as a new row; then the form is blanked. */
    method AddOrUpdateVariant() returns (alert: Option<string>)
      requires Valid()
      modifies this`formData, this`variantForm, this`editingIndex
      ensures Valid()
      ensures alert.Some? <==> old(variantForm).color == "" || old(variantForm).size == ""
      ensures alert.Some? ==> alert.value == VariantIncompleteAlert && formData == old(formData)
      ensures alert.Some? ==> variantForm == old(variantForm) && editingIndex == old(editingIndex)
      ensures alert.None? ==> variantForm == EmptyVariantForm && editingIndex.None?
      ensures alert.None? ==> formData == old(formData).(variants := formData.variants)
      ensures alert.None? && old(editingIndex).Some? ==>
        formData.variants == old(formData.variants)[old(editingIndex).value := old(variantForm)]
      ensures alert.None? && old(editingIndex).None? ==>
        formData.variants == old(formData.variants) + [old(variantForm)]
    {
      if variantForm.color == "" || variantForm.size == "" {
        return Some(VariantIncompleteAlert);
      }
      var updated := formData.variants;
      if editingIndex.Some? {
        updated := updated[editingIndex.value := variantForm];
        editingIndex := None;
      } else {
        updated := updated + [variantForm];
      }
      formData := formData.(variants := updated);
      variantForm := EmptyVariantForm;
      alert := None;
    }

    /** `handleResetVariantForm`: back to adding a new row. */
    method ResetVariantForm()
      modifies this`variantForm, this`editingIndex
      ensures Valid() && variantForm == EmptyVariantForm && editingIndex.None?
    {
      variantForm := EmptyVariantForm;
      editingIndex := None;
    }

    /** `handleSubmit`: nothing but an alert without a name or a category;
        otherwise the multipart body, built entry by entry. */
    method Submit(categories: seq<Category>) returns (body: Option<seq<Entry>>, alert: Option<string>)
      ensures body.None? <==> formData.name == "" || formData.categoryId == ""
      ensures body.None? ==> alert == Some(ProductIncompleteAlert)
      ensures body.Some? ==> body.value == ProductEntries(formData, categories) && alert.None?
    {
      if formData.name == "" || formData.categoryId == "" {
        return None, Some(ProductIncompleteAlert);
      }
      var fd := EncodeProductForm(formData, categories);
      return Some(fd), None;
    }
  }

  /** The body of `handleSubmit` after its guard: the product entries, then
      one `forEach` step per variant. */
  method EncodeProductForm(form: ProductData, categories: seq<Category>) returns (fd: seq<Entry>)
    ensures fd == ProductEntries(form, categories)
  {
    fd := EncodeHeader(form, categories);
    ghost var header := HeaderEntries(form, categories);
    assert fd == header;
    assert form.variants[..0] == [];
    var index := 0;
    while index < |form.variants|
      invariant 0 <= index <= |form.variants|
      invariant fd == header + VariantListEntries(form.variants[..index])
    {
      ghost var done := VariantListEntries(form.variants[..index]);
      var v := form.variants[index];
      fd := AppendVariant(fd, v, index);
      VariantListEntriesSnoc(form.variants, index);
      assert fd == header + (done + VariantEntries(v, index));
      index := index + 1;
    }
    assert form.variants[..index] == form.variants;
  }

  /** Extending the encoded prefix by one variant appends that variant's entries. */
  lemma VariantListEntriesSnoc(vs: seq<VariantForm>, n: nat)
    requires n < |vs|
    ensures VariantListEntries(vs[..n + 1]) == VariantListEntries(vs[..n]) + VariantEntries(vs[n], n)
  {
    assert vs[..n + 1][..n] == vs[..n];
  }

  /** The product-level appends of `handleSubmit`. */
  method EncodeHeader(form: ProductData, categories: seq<Category>) returns (fd: seq<Entry>)
    ensures fd == HeaderEntries(form, categories)
  {
    fd := [Entry(NameKey, Text(form.name)), Entry(DescriptionKey, Text(form.description)), Entry(CategoryIdKey, Text(form.categoryId))];
    var category := FindCategory(categories, form.categoryId);
    if category.Some? {
      fd := fd + [Entry(CategoryNameKey, Text(category.value.name))];
    }
    if form.imageFile.Some? {
      fd := fd + [Entry(ImageFileKey, File(form.imageFile.value))];
    }
  }

  /** The `forEach` callback: the entries of the variant at position `index`,
      appended one by one. */
  method AppendVariant(fd0: seq<Entry>, v: VariantForm, index: nat) returns (fd: seq<Entry>)
    ensures fd == fd0 + VariantEntries(v, index)
  {
    fd := fd0;
    if v.id != "" {
      fd := fd + [Entry(VariantKey(index, Id), Text(v.id))];
    }
    ghost var withId := fd;
    fd := fd + [Entry(VariantKey(index, Color), Text(v.color))];
    fd := fd + [Entry(VariantKey(index, Size), Text(v.size))];
    fd := fd + [Entry(VariantKey(index, Price), Text(IntToString(v.price)))];
    fd := fd + [Entry(VariantKey(index, StockQuantity), Text(IntToString(v.stockQuantity)))];
    ghost var withRequired := fd;
    if v.imageFile.Some? {
      fd := fd + [Entry(VariantKey(index, ImageFile), File(v.imageFile.value))];
    } else if v.imageUrl != "" {
      fd := fd + [Entry(VariantKey(index, ImageUrl), Text(v.imageUrl))];
    }
    AppendedBlock(fd0, withId, withRequired, fd, v, index);
  }

  /** The three stages of one `forEach` step append exactly the variant's entries. */
  lemma AppendedBlock(before: seq<Entry>, withId: seq<Entry>, withRequired: seq<Entry>, after: seq<Entry>, v: VariantForm, i: nat)
    requires withId == before + (if v.id != "" then [Entry(VariantKey(i, Id), Text(v.id))] else [])
    requires withRequired == withId + [Entry(VariantKey(i, Color), Text(v.color))] + [Entry(VariantKey(i, Size), Text(v.size))]
      + [Entry(VariantKey(i, Price), Text(IntToString(v.price)))] + [Entry(VariantKey(i, StockQuantity), Text(IntToString(v.stockQuantity)))]
    requires after == withRequired + (if v.imageFile.Some? then [Entry(VariantKey(i, ImageFile), File(v.imageFile.value))]
       else if v.imageUrl != "" then [Entry(VariantKey(i, ImageUrl), Text(v.imageUrl))] else [])
    ensures after == before + VariantEntries(v, i)
  {
  }

  /** Scenario: two variants are added; editing row 0 overwrites it in place
      (dropping its picked file) and keeps the length; saving the blank form
      is refused; a filled-in form is appended as a third row. */
  method EditThenAppendScenario(a: VariantForm, b: VariantForm)
    returns (afterEdit: seq<VariantForm>, refused: Option<string>, afterAdd: seq<VariantForm>)
    requires a.color != "" && a.size != "" && b.color != "" && b.size != ""
    ensures afterEdit == [a.(imageFile := None, price := 99), b]
    ensures refused == Some(VariantIncompleteAlert)
    ensures afterAdd == afterEdit + [EmptyVariantForm.(color := "Red", size := "L")]
  {
    var page := new ProductFormView(None);
    page.EditVariantForm(a);
    var r1 := page.AddOrUpdateVariant();
    page.EditVariantForm(b);
    var r2 := page.AddOrUpdateVariant();
    page.SelectVariant(0);
    page.EditVariantForm(page.variantForm.(price := 99));
    var r3 := page.AddOrUpdateVariant();
    afterEdit := page.formData.variants;
    refused := page.AddOrUpdateVariant();
    page.EditVariantForm(EmptyVariantForm.(color := "Red", size := "L"));
    var r4 := page.AddOrUpdateVariant();
    afterAdd := page.formData.variants;
  }
}
