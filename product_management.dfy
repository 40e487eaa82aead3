/**
 * The shopkeeper's product page (`product-management.tsx`): the submission
 * of the product form, which validates, uploads a chosen image, builds the
 * product and then appends the server's reply or puts it in place of the
 * edited product; and the deletion, which removes the product at once and
 * restores the exact earlier list when the server refuses. The awaited
 * replies (upload, create or update, delete) and `Date.now()` are
 * parameters; `parseFloat` of the price text is passed in already parsed.
 */
module ProductManagement {
  import opened Common
  import opened Strings
  import MockData
  import Validation
  import Checkout

  /** The image used when the form gives none. */
  const DefaultImage: string := "https://images.unsplash.com/photo-1441986300917-64674bd600d8?w=400&auto=format&fit=crop"

  /** `shopId`: the id of the stored shop profile, or `1` when there is none or it is empty. */
  function ShopIdOf(storedProfileId: Option<string>): (id: string)
    ensures storedProfileId.Some? && storedProfileId.value != "" ==> id == storedProfileId.value
    ensures storedProfileId.None? || storedProfileId.value == "" ==> id == "1"
  {
    if storedProfileId.Some? && storedProfileId.value != "" then storedProfileId.value else "1"
  }

  /** The modal's text fields. */
  datatype FormData = FormData(name: string, description: string, price: string, category: string, stock: string, image: string)

  /** A stock field as sent: `undefined` for a blank field, otherwise `parseInt` of it, which may be `NaN`. */
  datatype StockField = Undefined | Number(value: int) | NaN

  /** The product the page sends (`newProduct`). */
  datatype Draft = Draft(
    id: string,
    name: string,
    description: string,
    price: real,
    category: string,
    shopId: string,
    inStock: bool,
    stock: StockField,
    image: string)

  /** The chosen image file and how its upload ended: none chosen, its URL, or the error's message. */
  datatype Upload = NoFile | Uploaded(url: string) | UploadFailed(message: string)

  /** `parseInt(formData.stock) > 0`: a stock that does not parse is not in stock. */
  predicate InStock(stock: string)
  {
    var n := ParseInt(stock);
    n.Some? && n.value > 0
  }

  /** `formData.stock ? parseInt(formData.stock) : undefined`. */
  function StockOf(stock: string): (r: StockField)
    ensures stock == "" <==> r.Undefined?
    ensures r.Number? <==> ParseInt(stock).Some?
    ensures r.Number? ==> r.value == ParseInt(stock).value
  {
    if stock == "" then Undefined
    else
      match ParseInt(stock)
      case Some(n) => Number(n)
      case None => NaN
  }

  /** `imageUrl` before any upload: the typed URL, or the default for an empty one. */
  function TypedImage(image: string): (url: string)
    ensures image != "" ==> url == image
    ensures image == "" ==> url == DefaultImage
  {
    if image != "" then image else DefaultImage
  }

  /**
   * `newProduct`: the edited product's id, or `p` and the time for a new one
   * (or for an edited one whose id is empty); the text fields sanitised; the
   * price parsed; the stock rules above; the image URL given.
   */
  function BuildDraft(form: FormData, price: real, editing: Option<MockData.Product>, now: nat, shopId: string,
                      imageUrl: string): (d: Draft)
    ensures editing.Some? && editing.value.id != "" ==> d.id == editing.value.id
    ensures editing.None? || editing.value.id == "" ==> d.id == "p" + NatToString(now)
    ensures d.name == Validation.SanitizeInput(form.name) && d.description == Validation.SanitizeInput(form.description)
    ensures d.category == Validation.SanitizeInput(form.category)
    ensures d.price == price && d.shopId == shopId && d.image == imageUrl
    ensures d.inStock <==> InStock(form.stock)
    ensures d.stock == StockOf(form.stock)
  {
    Draft(
      if editing.Some? && editing.value.id != "" then editing.value.id else "p" + NatToString(now),
      Validation.SanitizeInput(form.name), Validation.SanitizeInput(form.description), price,
      Validation.SanitizeInput(form.category), shopId, InStock(form.stock), StockOf(form.stock), imageUrl)
  }

  /** A blank stock field sends no stock and marks the product out of stock. */
  lemma BlankStockIsOutOfStock(form: FormData, price: real, editing: Option<MockData.Product>, now: nat, shopId: string,
                               imageUrl: string)
    requires form.stock == ""
    ensures var d := BuildDraft(form, price, editing, now, shopId, imageUrl);
      !d.inStock && d.stock.Undefined?
  {
    ParseIntEmpty();
  }

  /** A stock typed as a natural number is sent as that number, and the product is in stock exactly when it is positive. */
  lemma TypedStockRoundTrips(form: FormData, price: real, editing: Option<MockData.Product>, now: nat, shopId: string,
                             imageUrl: string, n: nat)
    requires form.stock == NatToString(n)
    ensures var d := BuildDraft(form, price, editing, now, shopId, imageUrl);
      d.stock == Number(n) && (d.inStock <==> n > 0)
  {
    ParseIntNatToString(n, "");
    assert NatToString(n) + "" == NatToString(n);
  }

  /** `parseInt` is called without a radix: a typed stock `0x…` is read in base 16. */
  lemma {:induction false} HexStockIsBase16(x: char, d: string)
    requires x == 'x' || x == 'X'
    requires d != [] && forall i :: 0 <= i < |d| ==> IsRadixDigit(d[i], 16)
    ensures StockOf(['0', x] + d) == Number(DigitsValue(d, 16))
    ensures InStock(['0', x] + d) <==> DigitsValue(d, 16) > 0
  {
    assert "" + ['0', x] + d == ['0', x] + d;
    ParseIntHex("", x, d);
  }

  /** The typed stock `"0x10"` is saved as 16, in stock. */
  lemma HexStockExample()
    ensures StockOf("0x10") == Number(16) && InStock("0x10")
  {
    var d := ['1', '0'];
    assert "0x10" == ['0', 'x'] + d;
    HexStockIsBase16('x', d);
    assert d[..1] == ['1'] && ['1'][..0] == [];
    assert DigitsValue(d, 16) == 16;
  }

  /** The list after a successful save: the reply in place of the edited product, or appended after the others. */
  function AfterSave(products: seq<MockData.Product>, editing: Option<MockData.Product>, saved: MockData.Product): (r: seq<MockData.Product>)
    ensures editing.None? ==> r == products + [saved]
    ensures editing.Some? ==> |r| == |products|
    ensures editing.Some? ==> forall i :: 0 <= i < |products| ==> r[i] == if products[i].id == editing.value.id then saved else products[i]
  {
    if editing.None? then products + [saved]
    else
      var id := editing.value.id;
      seq(|products|, i requires 0 <= i < |products| => if products[i].id == id then saved else products[i])
  }

  /** After an edit the reply is listed where the edited product was, and no product keeps the old id unless the reply does. */
  lemma EditReplacesInPlace(products: seq<MockData.Product>, k: nat, saved: MockData.Product)
    requires k < |products|
    ensures var r := AfterSave(products, Some(products[k]), saved);
      r[k] == saved && (forall i :: 0 <= i < |r| && r[i].id == products[k].id ==> r[i] == saved) &&
      forall i :: 0 <= i < |r| && r[i] != saved ==> r[i] == products[i] && r[i].id != products[k].id
  {
  }

  /** `products.filter((p) => p.id !== productId)`. */
  function Removed(products: seq<MockData.Product>, productId: string): (r: seq<MockData.Product>)
    ensures forall p :: p in r <==> p in products && p.id != productId
    ensures |r| <= |products|
  {
    Filter(products, (p: MockData.Product) => p.id != productId)
  }

  /** The optimistic removal keeps every other product as often as it was listed. */
  lemma RemovedKeepsOthers(products: seq<MockData.Product>, productId: string, p: MockData.Product)
    ensures multiset(Removed(products, productId))[p] == if p.id != productId then multiset(products)[p] else 0
  {
    FilterCount(products, (q: MockData.Product) => q.id != productId, p);
  }

  /** How a submission ended. */
  datatype Outcome = FormErrors(fields: map<string, string>) | UploadError(message: string) | SaveFailed | Saved

  /** The page's state. */
  class Page {
    const shopId: string
    var products: seq<MockData.Product>
    var editingProduct: Option<MockData.Product>
    var isModalOpen: bool
    var isSubmitting: bool
    var uploadingImage: bool
    var errors: map<string, string>

    constructor(shopId: string, loaded: seq<MockData.Product>)
      ensures this.shopId == shopId && products == loaded && editingProduct.None?
      ensures !isModalOpen && !isSubmitting && !uploadingImage && errors == map[]
    {
      this.shopId := shopId;
      products := loaded;
      editingProduct := None;
      isModalOpen := false;
      isSubmitting := false;
      uploadingImage := false;
      errors := map[];
    }

    /**
     * `handleSubmit` past a valid form. `price` is `parseFloat(form.price)`,
     * `upload` the chosen file's fate and `reply` the server's product
     * (`None` when the request fails). A failed upload sends nothing.
     */
    method Save(form: FormData, price: real, upload: Upload, now: nat, reply: Option<MockData.Product>)
      returns (sent: Option<Draft>, outcome: Outcome)
      modifies this
      ensures upload.UploadFailed? ==>
                sent.None? && outcome == UploadError(if upload.message != "" then upload.message else "Failed to upload image")
      ensures !upload.UploadFailed? ==>
                sent == Some(BuildDraft(form, price, old(editingProduct), now, shopId,
                                        if upload.Uploaded? then upload.url else TypedImage(form.image))) &&
                outcome == (if reply.Some? then Saved else SaveFailed)
      ensures outcome == Saved ==> reply.Some? && products == AfterSave(old(products), old(editingProduct), reply.value) &&
                                   !isModalOpen && editingProduct.None? && errors == map[]
      ensures outcome != Saved ==> products == old(products) && isModalOpen == old(isModalOpen) &&
                                   editingProduct == old(editingProduct) && errors == old(errors)
      ensures !isSubmitting
      ensures uploadingImage == (upload.NoFile? && old(uploadingImage))
    {
      isSubmitting := true;
      ghost var before, editing := products, editingProduct;
      var imageUrl := UploadImage(upload, form.image);
      assert products == before && editingProduct == editing;
      if imageUrl.None? {
        isSubmitting := false;
        sent, outcome := None, UploadError(if upload.message != "" then upload.message else "Failed to upload image");
      } else {
        sent := Some(BuildDraft(form, price, editingProduct, now, shopId, imageUrl.value));
        outcome := Settle(reply);
      }
    }

    /** The upload step of `handleSubmit`: the uploaded URL, the typed one without a file, nothing when the upload fails. */
    method UploadImage(upload: Upload, typed: string) returns (imageUrl: Option<string>)
      modifies this
      ensures imageUrl == (if upload.UploadFailed? then None
                           else Some(if upload.Uploaded? then upload.url else TypedImage(typed)))
      ensures uploadingImage == (upload.NoFile? && old(uploadingImage))
      ensures products == old(products) && editingProduct == old(editingProduct) && isModalOpen == old(isModalOpen)
      ensures isSubmitting == old(isSubmitting) && errors == old(errors)
    {
      imageUrl := Some(TypedImage(typed));
      if !upload.NoFile? {
        uploadingImage := true;
        if upload.UploadFailed? {
          uploadingImage := false;
          return None;
        }
        imageUrl := Some(upload.url);
        uploadingImage := false;
      }
    }

    /** `handleCloseModal`: the modal closes, nothing is being edited and the errors are cleared. */
    method CloseModal()
      modifies this
      ensures !isModalOpen && editingProduct.None? && errors == map[]
      ensures products == old(products) && isSubmitting == old(isSubmitting) && uploadingImage == old(uploadingImage)
    {
      isModalOpen := false;
      editingProduct := None;
      errors := map[];
    }

    /** The end of a save that sent its product: the reply is listed and the modal closed, or nothing changes. */
    method Settle(reply: Option<MockData.Product>) returns (outcome: Outcome)
      modifies this
      ensures outcome == (if reply.Some? then Saved else SaveFailed)
      ensures reply.Some? ==> products == AfterSave(old(products), old(editingProduct), reply.value) &&
                              !isModalOpen && editingProduct.None? && errors == map[]
      ensures reply.None? ==> products == old(products) && isModalOpen == old(isModalOpen) &&
                              editingProduct == old(editingProduct) && errors == old(errors)
      ensures !isSubmitting && uploadingImage == old(uploadingImage)
    {
      if reply.Some? {
        products := AfterSave(products, editingProduct, reply.value);
        CloseModal();
        outcome := Saved;
      } else {
        outcome := SaveFailed;
      }
      isSubmitting := false;
    }

    /** `handleSubmit` once the form has been validated into `validationErrors`: errors are shown and nothing is sent. */
    method Submit(validationErrors: seq<Validation.ValidationError>, form: FormData, price: Option<real>, upload: Upload,
                  now: nat, reply: Option<MockData.Product>)
      returns (sent: Option<Draft>, outcome: Outcome)
      modifies this
      ensures validationErrors != [] ==> sent.None? && outcome == FormErrors(errors) && errors == Checkout.ErrorMap(validationErrors)
      ensures validationErrors != [] ==> isSubmitting == old(isSubmitting) && products == old(products)
      ensures validationErrors == [] && upload.UploadFailed? ==>
                sent.None? && outcome == UploadError(if upload.message != "" then upload.message else "Failed to upload image")
      ensures validationErrors == [] && !upload.UploadFailed? ==>
                sent == Some(BuildDraft(form, if price.Some? then price.value else 0.0, old(editingProduct), now, shopId,
                                        if upload.Uploaded? then upload.url else TypedImage(form.image))) &&
                outcome == (if reply.Some? then Saved else SaveFailed)
      ensures outcome == Saved ==> reply.Some? && products == AfterSave(old(products), old(editingProduct), reply.value) &&
                                   !isModalOpen && editingProduct.None?
      ensures validationErrors == [] && outcome != Saved ==> products == old(products)
      ensures validationErrors == [] ==> !isSubmitting && errors == map[]
      ensures validationErrors == [] ==> uploadingImage == (upload.NoFile? && old(uploadingImage))
    {
      errors := map[];
      if |validationErrors| > 0 {
        errors := Checkout.ErrorMap(validationErrors);
        return None, FormErrors(errors);
      }
      sent, outcome := Save(form, if price.Some? then price.value else 0.0, upload, now, reply);
    }

    /** `handleSubmit`: `validateProductForm` on the name, description, parsed price and category, then the rest. */
    method HandleSubmit(form: FormData, price: Option<real>, upload: Upload, now: nat, reply: Option<MockData.Product>)
      returns (validationErrors: seq<Validation.ValidationError>, sent: Option<Draft>, outcome: Outcome)
      modifies this
      ensures validationErrors == Validation.Collect(Validation.ProductChecks(
                Validation.ProductForm(form.name, form.description, price, form.category)))
      ensures validationErrors != [] ==> sent.None? && outcome == FormErrors(errors) && errors == Checkout.ErrorMap(validationErrors)
      ensures validationErrors == [] && upload.UploadFailed? ==> sent.None? && outcome.UploadError?
      ensures validationErrors == [] && !upload.UploadFailed? ==>
                price.Some? && price.value > 0.0 &&
                sent == Some(BuildDraft(form, price.value, old(editingProduct), now, shopId,
                                        if upload.Uploaded? then upload.url else TypedImage(form.image)))
      ensures outcome == Saved ==> reply.Some? && products == AfterSave(old(products), old(editingProduct), reply.value)
      ensures outcome != Saved ==> products == old(products)
    {
      var d := Validation.ProductForm(form.name, form.description, price, form.category);
      validationErrors := Validation.ValidateProductForm(d);
      Validation.ProductFormMeaning(d);
      sent, outcome := Submit(validationErrors, form, price, upload, now, reply);
    }

    /** The synchronous part of `handleDelete`: without confirmation nothing; otherwise the snapshot, then the removal. */
    method BeginDelete(productId: string, confirmed: bool) returns (snapshot: Option<seq<MockData.Product>>)
      modifies this
      ensures !confirmed ==> snapshot.None? && products == old(products)
      ensures confirmed ==> snapshot == Some(old(products)) && products == Removed(old(products), productId)
    {
      if !confirmed {
        return None;
      }
      snapshot := Some(products);
      products := Filter(products, (p: MockData.Product) => p.id != productId);
    }

    /** The end of `handleDelete`: a refused delete restores the snapshot exactly. */
    method SettleDelete(snapshot: seq<MockData.Product>, succeeded: bool)
      modifies this
      ensures succeeded ==> products == old(products)
      ensures !succeeded ==> products == snapshot
    {
      if !succeeded {
        products := snapshot;
      }
    }
  }
}
