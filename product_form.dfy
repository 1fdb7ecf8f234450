/**
 * The add/edit product sheet (src/components/products/ProductForm.tsx): form values
 * checked by a schema, initial values taken from the product being edited, and two
 * lists kept beside the form, the variants and the images, which the submit hands
 * over together with the values before emptying both. The schema library and the
 * form library are reduced to the schema predicate and a `values` field; the random
 * image choice is a nondeterministic pick from the three fixed addresses.
 */
module ProductForm {
  import opened Wrappers
  import opened Seqs
  import ProductTable

  type Variant = ProductTable.Variant
  type Product = ProductTable.Product

  datatype FormValues = FormValues(name: string, sku: string, barcode: string, category: string,
                                   description: string, price: real, costPrice: real, stock: int,
                                   lowStockThreshold: int, trackInventory: bool)

  /** The schema: three required texts and four numbers that may not be negative. */
  predicate ValidValues(v: FormValues)
  {
    && |v.name| >= 1 && |v.sku| >= 1 && |v.category| >= 1
    && v.price >= 0.0 && v.costPrice >= 0.0 && v.stock >= 0 && v.lowStockThreshold >= 0
  }

  /** The same requirements read on a stored product. */
  predicate ValidProduct(p: Product)
  {
    && p.name != "" && p.sku != "" && p.category != ""
    && p.price >= 0.0 && p.costPrice >= 0.0 && p.stock >= 0 && p.lowStockThreshold >= 0
  }

  /**
   * The initial values as written: every field falls back with `||`, so a stored
   * threshold of 0, which is falsy, becomes 10. The other fallbacks give back the
   * value itself (an empty text for an empty text, 0 for 0).
   */
  function DefaultValuesAsWritten(editing: Option<Product>): FormValues
  {
    match editing
    case None => FormValues("", "", "", "", "", 0.0, 0.0, 0, 10, true)
    case Some(p) =>
      FormValues(p.name, p.sku, p.barcode, p.category, "", p.price, p.costPrice, p.stock,
                 if p.lowStockThreshold == 0 then 10 else p.lowStockThreshold, true)
  }

  /** Opening a product whose threshold is 0 shows 10: a resubmit silently raises the threshold. */
  lemma AsWrittenLosesZeroThreshold()
    ensures var p := ProductTable.Product("1", "Water", "SKU-9", "", "beverages", 1.0, 0.5, 3, 0, "", None);
            && ValidProduct(p)
            && DefaultValuesAsWritten(Some(p)).lowStockThreshold == 10
            && DefaultValuesAsWritten(Some(p)).lowStockThreshold != p.lowStockThreshold
  {
  }

  /** The initial values with the threshold falling back only when there is no product (`??`). */
  function DefaultValues(editing: Option<Product>): FormValues
  {
    match editing
    case None => FormValues("", "", "", "", "", 0.0, 0.0, 0, 10, true)
    case Some(p) =>
      FormValues(p.name, p.sku, p.barcode, p.category, "", p.price, p.costPrice, p.stock,
                 p.lowStockThreshold, true)
  }

  /**
   * A new product starts at threshold 10 with inventory tracking on and cannot be
   * submitted before a name, SKU and category are given. An edited product starts
   * from its own fields, so a valid product opens as valid values, and the as-written
   * defaults differ from these only at a threshold of 0.
   */
  lemma DefaultValuesSpec(editing: Option<Product>)
    ensures editing.None? ==>
              && DefaultValues(editing).lowStockThreshold == 10 && DefaultValues(editing).trackInventory
              && !ValidValues(DefaultValues(editing))
    ensures editing.Some? ==>
              var p, v := editing.value, DefaultValues(editing);
              && v.name == p.name && v.sku == p.sku && v.barcode == p.barcode && v.category == p.category
              && v.price == p.price && v.costPrice == p.costPrice && v.stock == p.stock
              && v.lowStockThreshold == p.lowStockThreshold && v.trackInventory
              && (ValidProduct(p) ==> ValidValues(v))
    ensures (editing.None? || editing.value.lowStockThreshold != 0) <==>
              DefaultValuesAsWritten(editing) == DefaultValues(editing)
  {
  }

  const MockImages: seq<string> := [
    "https://images.unsplash.com/photo-1523275335684-37898b6baf30?w=100&h=100&fit=crop",
    "https://images.unsplash.com/photo-1505740420928-5e560c06d30e?w=100&h=100&fit=crop",
    "https://images.unsplash.com/photo-1572635196237-14b3f281503f?w=100&h=100&fit=crop"
  ]

  /** What the submit hands to `onSubmit`. */
  datatype SubmitPayload = SubmitPayload(values: FormValues, variants: seq<Variant>, images: seq<string>)

  /** Removing the element just appended gives the list back, whatever it was. */
  lemma RemoveLastUndoesAppend<T>(s: seq<T>, x: T)
    ensures RemoveIndex(s + [x], |s|) == s
  {
    RemoveIndexSpec(s + [x], |s|);
    assert (s + [x])[..|s|] == s;
  }

  /**
   * The sheet's state. `editingProduct` is a prop the page may change while the sheet
   * stays mounted; the lists, the variant inputs and the form values are state seeded
   * from it only at mount, and `resetValues` are the defaults `useForm` captured then,
   * which `form.reset()` restores.
   */
  class ProductFormSheet {
    var editingProduct: Option<Product>
    var resetValues: FormValues
    var values: FormValues
    var variants: seq<Variant>
    var images: seq<string>
    var newVariantName: string
    var newVariantValue: string

    /** The mount: an edited product brings its values, its variants (none when it has no list) and its one image. */
    constructor (editingProduct: Option<Product>)
      ensures this.editingProduct == editingProduct
      ensures values == DefaultValues(editingProduct) && resetValues == values
      ensures variants == (if editingProduct.Some? && editingProduct.value.variants.Some?
                           then editingProduct.value.variants.value else [])
      ensures images == (if editingProduct.Some? then [editingProduct.value.image] else [])
      ensures newVariantName == "" && newVariantValue == ""
    {
      this.editingProduct := editingProduct;
      values := DefaultValues(editingProduct);
      resetValues := values;
      variants := if editingProduct.Some? && editingProduct.value.variants.Some?
                  then editingProduct.value.variants.value else [];
      images := if editingProduct.Some? then [editingProduct.value.image] else [];
      newVariantName, newVariantValue := "", "";
    }

    /** The sheet title, which follows the current prop. */
    function Title(): (r: string)
      reads this
      ensures r == "Edit Product" <==> editingProduct.Some?
      ensures r == "Add New Product" <==> editingProduct.None?
    {
      if editingProduct.Some? then "Edit Product" else "Add New Product"
    }

    /**
     * The page passes another product, or none, to the mounted sheet: the title
     * follows, but the values, the lists, the inputs and the reset values stay as
     * they were, since state and form defaults are read only at mount.
     */
    method EditingProductChanges(p: Option<Product>)
      modifies this
      ensures editingProduct == p
      ensures values == old(values) && resetValues == old(resetValues)
      ensures variants == old(variants) && images == old(images)
      ensures newVariantName == old(newVariantName) && newVariantValue == old(newVariantValue)
    {
      editingProduct := p;
    }

    /**
     * A fresh mount for `p`, as a `key` on the edited product would give: the sheet
     * is then what the constructor makes of `p`.
     */
    method Remount(p: Option<Product>)
      modifies this
      ensures editingProduct == p
      ensures values == DefaultValues(p) && resetValues == values
      ensures variants == (if p.Some? && p.value.variants.Some? then p.value.variants.value else [])
      ensures images == (if p.Some? then [p.value.image] else [])
      ensures newVariantName == "" && newVariantValue == ""
    {
      editingProduct := p;
      values := DefaultValues(p);
      resetValues := values;
      variants := if p.Some? && p.value.variants.Some? then p.value.variants.value else [];
      images := if p.Some? then [p.value.image] else [];
      newVariantName, newVariantValue := "", "";
    }

    /** A change made through the form's fields. */
    method EditValues(v: FormValues)
      modifies this
      ensures values == v
      ensures editingProduct == old(editingProduct) && resetValues == old(resetValues)
      ensures variants == old(variants) && images == old(images)
      ensures newVariantName == old(newVariantName) && newVariantValue == old(newVariantValue)
    {
      values := v;
    }

    method EnterVariant(name: string, value: string)
      modifies this
      ensures newVariantName == name && newVariantValue == value
      ensures editingProduct == old(editingProduct) && resetValues == old(resetValues)
      ensures values == old(values) && variants == old(variants) && images == old(images)
    {
      newVariantName, newVariantValue := name, value;
    }

    /**
     * The add-variant button: with both inputs filled, one variant is appended and
     * the inputs are cleared; otherwise nothing changes.
     */
    method AddVariant() returns (added: bool)
      modifies this
      ensures added <==> old(newVariantName) != "" && old(newVariantValue) != ""
      ensures added ==> variants == old(variants) + [ProductTable.Variant(old(newVariantName), old(newVariantValue))]
                        && newVariantName == "" && newVariantValue == ""
      ensures !added ==> variants == old(variants)
                         && newVariantName == old(newVariantName) && newVariantValue == old(newVariantValue)
      ensures editingProduct == old(editingProduct) && resetValues == old(resetValues)
      ensures values == old(values) && images == old(images)
    {
      added := newVariantName != "" && newVariantValue != "";
      if added {
        variants := variants + [ProductTable.Variant(newVariantName, newVariantValue)];
        newVariantName, newVariantValue := "", "";
      }
    }

    /** A variant's remove button: drops the element at `index`; an index out of range changes nothing. */
    method RemoveVariant(index: int)
      modifies this
      ensures variants == RemoveIndex(old(variants), index)
      ensures 0 <= index < |old(variants)| ==> variants == old(variants)[..index] + old(variants)[index + 1..]
      ensures !(0 <= index < |old(variants)|) ==> variants == old(variants)
      ensures editingProduct == old(editingProduct) && resetValues == old(resetValues)
      ensures values == old(values) && images == old(images)
      ensures newVariantName == old(newVariantName) && newVariantValue == old(newVariantValue)
    {
      RemoveIndexSpec(variants, index);
      variants := RemoveIndex(variants, index);
    }

    /** The upload button appends one of the three sample images. */
    method AddImage()
      modifies this
      ensures |images| == |old(images)| + 1 && images[..|old(images)|] == old(images)
      ensures images[|images| - 1] in MockImages
      ensures editingProduct == old(editingProduct) && resetValues == old(resetValues)
      ensures values == old(values) && variants == old(variants)
      ensures newVariantName == old(newVariantName) && newVariantValue == old(newVariantValue)
    {
      assert MockImages[0] in MockImages;
      var pick :| pick in MockImages;
      images := images + [pick];
    }

    /** An image's remove button, by position like the variants. */
    method RemoveImage(index: int)
      modifies this
      ensures images == RemoveIndex(old(images), index)
      ensures 0 <= index < |old(images)| ==> images == old(images)[..index] + old(images)[index + 1..]
      ensures !(0 <= index < |old(images)|) ==> images == old(images)
      ensures editingProduct == old(editingProduct) && resetValues == old(resetValues)
      ensures values == old(values) && variants == old(variants)
      ensures newVariantName == old(newVariantName) && newVariantValue == old(newVariantValue)
    {
      RemoveIndexSpec(images, index);
      images := RemoveIndex(images, index);
    }

    /**
     * Submit: values the schema rejects stop the submit and change nothing. The
     * number inputs have a `step` but no `min`, so the browser counts steps from the
     * value the input itself holds, and its step check never refuses that value. Accepted values go out with the variants and images as they are; then
     * the form returns to the values captured at mount and both lists are emptied.
     */
    method Submit() returns (payload: Option<SubmitPayload>)
      modifies this
      ensures !ValidValues(old(values)) ==>
                payload == None && values == old(values) && variants == old(variants) && images == old(images)
      ensures ValidValues(old(values)) ==>
                && payload == Some(SubmitPayload(old(values), old(variants), old(images)))
                && values == resetValues && variants == [] && images == []
      ensures editingProduct == old(editingProduct) && resetValues == old(resetValues)
      ensures newVariantName == old(newVariantName) && newVariantValue == old(newVariantValue)
    {
      if !ValidValues(values) {
        return None;
      }
      payload := Some(SubmitPayload(values, variants, images));
      values := resetValues;
      variants, images := [], [];
    }
  }

  /**
   * The products page's edit flow as written: the sheet is mounted once for no
   * product, and Edit only changes the prop. The sheet then says "Edit Product"
   * over blank values that are not the product's, with no variants and no image.
   */
  method EditFlowAsWritten(p: Product) returns (sheet: ProductFormSheet)
    requires ValidProduct(p)
    ensures sheet.Title() == "Edit Product"
    ensures sheet.values == DefaultValues(None) && sheet.values != DefaultValues(Some(p))
    ensures sheet.variants == [] && sheet.images == []
  {
    sheet := new ProductFormSheet(None);
    sheet.EditingProductChanges(Some(p));
  }

  /** The same flow with a fresh mount per product: the sheet opens on the product's own values and image. */
  method EditFlowCorrected(p: Product) returns (sheet: ProductFormSheet)
    ensures sheet.Title() == "Edit Product"
    ensures sheet.values == DefaultValues(Some(p)) && sheet.resetValues == sheet.values
    ensures sheet.images == [p.image]
    ensures ValidProduct(p) ==> ValidValues(sheet.values)
  {
    sheet := new ProductFormSheet(None);
    sheet.Remount(Some(p));
    DefaultValuesSpec(Some(p));
  }
}
