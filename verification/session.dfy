/** The storefront page's state as one immutable record, and each user
    action that carries logic as a pure update from state to state. */
module Session {
  import opened Wrappers
  import opened Catalog
  import opened Promo
  import opened Pricing
  import opened Cart
  import opened FileName

  datatype State = State(
    selectedCategory: string,
    selectedProduct: Option<Product>,
    cart: seq<CartItem>,
    promoCode: string,                 // the text in the promo box
    appliedPromo: Option<AppliedPromo>,
    selectedSize: string,              // "" when nothing is chosen
    selectedMaterial: string,          // "" when nothing is chosen
    showCustomUpload: bool,
    customImage: Option<string>,       // the uploaded image as a data URL
    customImageName: string)

  /** The state when the page loads. */
  const Initial: State := State(AllCategories, None, [], "", None, "", "", false, None, "")

  /** The amount shown as the cart subtotal. */
  function Subtotal(s: State): real {
    CartTotal(s.cart)
  }

  /** The amount shown as the amount to pay. */
  function Total(s: State): real {
    FinalTotal(CartTotal(s.cart), s.appliedPromo)
  }

  /** What every reachable state satisfies: a cart of unique,
      positive, well-priced lines, a registered promo if any, and a
      well-priced product in the dialog if any. */
  predicate Valid(s: State) {
    && CartInvariant(s.cart)
    && WellPricedCart(s.cart)
    && ValidApplied(s.appliedPromo)
    && (s.selectedProduct.None? || WellPriced(s.selectedProduct.value))
  }

  /** "Add to cart" does something only with a product, a size and a
      material all chosen. */
  predicate CanAddToCart(s: State) {
    s.selectedProduct.Some? && s.selectedSize != "" && s.selectedMaterial != ""
  }

  /** Adds the chosen configuration to the cart and closes the product
      dialog by clearing the product, size and material choices. */
  function AddToCart(s: State): (t: State)
    ensures !CanAddToCart(s) ==> t == s
    ensures CanAddToCart(s) ==>
      t.cart == AddLine(s.cart, s.selectedProduct.value, s.selectedSize, s.selectedMaterial)
    ensures CanAddToCart(s) ==>
      t.selectedProduct.None? && t.selectedSize == "" && t.selectedMaterial == ""
    ensures t.(cart := s.cart, selectedProduct := s.selectedProduct,
               selectedSize := s.selectedSize, selectedMaterial := s.selectedMaterial) == s
  {
    if !CanAddToCart(s) then s
    else
      s.(cart := AddLine(s.cart, s.selectedProduct.value, s.selectedSize, s.selectedMaterial),
         selectedProduct := None, selectedSize := "", selectedMaterial := "")
  }

  /** Applies the code in the promo box; nothing but the applied promo changes. */
  function ApplyPromoCode(s: State): (t: State)
    ensures s.promoCode in Registry ==>
      t.appliedPromo == Some(AppliedPromo(s.promoCode, Registry[s.promoCode]))
    ensures s.promoCode !in Registry ==> t == s
    ensures t.(appliedPromo := s.appliedPromo) == s
  {
    s.(appliedPromo := ApplyCode(s.promoCode, s.appliedPromo))
  }

  /** What the browser reports about a chosen file. */
  datatype UploadedFile = UploadedFile(name: string, mimeType: string)

  /** The upload handler once the read of the file has ended: an image
      file becomes the custom image, together with its name. `result` is
      the reader's result, a data URL, or `None` (the storefront's `null`) when
      the read failed or was aborted; the name is recorded either way. No
      file, or a file of another type, is ignored. */
  function LoadImage(s: State, file: Option<UploadedFile>, result: Option<string>): (t: State)
    ensures file.None? || !IsImageType(file.value.mimeType) ==> t == s
    ensures file.Some? && IsImageType(file.value.mimeType) ==>
      t.customImage == result && t.customImageName == file.value.name
    ensures t.(customImage := s.customImage, customImageName := s.customImageName) == s
  {
    if file.Some? && IsImageType(file.value.mimeType) then
      s.(customImage := result, customImageName := file.value.name)
    else s
  }

  /** "Choose another image": forgets the uploaded image and its name, but
      keeps any size and material already chosen. */
  function ChooseAnotherImage(s: State): (t: State)
    ensures t.customImage.None? && t.customImageName == ""
    ensures t.(customImage := s.customImage, customImageName := s.customImageName) == s
  {
    s.(customImage := None, customImageName := "")
  }

  /** "Order" in the upload dialog does something only with an image
      (neither absent nor empty), a file name, a size and a material. */
  predicate CanCreateCustomProduct(s: State) {
    && s.customImage.Some? && s.customImage.value != ""
    && s.customImageName != ""
    && s.selectedSize != "" && s.selectedMaterial != ""
  }

  /** The product synthesised from an upload: fixed category, style, price
      5800, no discount, and the standard sizes and materials. */
  function CustomProduct(id: int, fileName: string, image: string): (p: Product)
    ensures p.id == id && p.image == image
    ensures p.name == StripExtension(fileName)
    ensures p.price == 5800 && p.discount.None? && CalculatePrice(p) == 5800.0
    ensures p.sizes == Sizes && p.materials == Materials
  {
    Product(id, StripExtension(fileName), "Пользовательские", "Индивидуальный дизайн",
            5800, None, image, Sizes, Materials)
  }

  /** Puts the uploaded design in the cart as a new line and resets the
      upload dialog. `id` stands for the clock reading the storefront uses as
      the new product's id. The line is always appended, never merged. */
  function CreateCustomProduct(s: State, id: int): (t: State)
    ensures !CanCreateCustomProduct(s) ==> t == s
    ensures CanCreateCustomProduct(s) ==>
      && |t.cart| == |s.cart| + 1
      && t.cart[..|s.cart|] == s.cart
      && t.cart[|s.cart|] == CartItem(CustomProduct(id, s.customImageName, s.customImage.value),
                                      s.selectedSize, s.selectedMaterial, 1)
    ensures CanCreateCustomProduct(s) ==>
      && !t.showCustomUpload && t.customImage.None? && t.customImageName == ""
      && t.selectedSize == "" && t.selectedMaterial == ""
    ensures t.selectedCategory == s.selectedCategory && t.selectedProduct == s.selectedProduct
    ensures t.promoCode == s.promoCode && t.appliedPromo == s.appliedPromo
  {
    if !CanCreateCustomProduct(s) then s
    else
      var product := CustomProduct(id, s.customImageName, s.customImage.value);
      s.(cart := s.cart + [CartItem(product, s.selectedSize, s.selectedMaterial, 1)],
         showCustomUpload := false, customImage := None, customImageName := "",
         selectedSize := "", selectedMaterial := "")
  }

  /** `id` is used by no line of the cart. */
  predicate FreshId(s: State, id: int) {
    forall i :: 0 <= i < |s.cart| ==> s.cart[i].product.id != id
  }

  lemma InitialValid()
    ensures Valid(Initial)
  {
  }

  /** Opening the dialog of a catalog product, or closing the dialog,
      keeps the state valid: the catalog's prices are all sensible. */
  lemma SelectProductPreservesValid(s: State, i: nat)
    requires Valid(s) && i < |Products|
    ensures Valid(s.(selectedProduct := Some(Products[i])))
    ensures Valid(s.(selectedProduct := None))
  {
    CatalogWellPriced();
  }

  lemma AddToCartPreservesValid(s: State)
    requires Valid(s)
    ensures Valid(AddToCart(s))
  {
  }

  lemma ApplyPromoCodePreservesValid(s: State)
    requires Valid(s)
    ensures Valid(ApplyPromoCode(s))
  {
  }

  /** A custom line keeps configurations unique as long as its id is new. */
  lemma CreateCustomProductPreservesValid(s: State, id: int)
    requires Valid(s) && FreshId(s, id)
    ensures Valid(CreateCustomProduct(s, id))
  {
  }

  /** Loading an image, and choosing another one, touch neither the cart
      nor the promo, so they keep the state valid. */
  lemma LoadImagePreservesValid(s: State, file: Option<UploadedFile>, result: Option<string>)
    requires Valid(s)
    ensures Valid(LoadImage(s, file, result))
  {
  }

  lemma ChooseAnotherImagePreservesValid(s: State)
    requires Valid(s)
    ensures Valid(ChooseAnotherImage(s))
  {
  }

  /** After "choose another image" the design cannot be ordered until a
      new image is loaded: ordering changes nothing. */
  lemma ChooseAnotherImageBlocksOrder(s: State, id: int)
    ensures !CanCreateCustomProduct(ChooseAnotherImage(s))
    ensures CreateCustomProduct(ChooseAnotherImage(s), id) == ChooseAnotherImage(s)
  {
  }

  /** A successfully read image file with a non-empty name, once a size
      and a material are chosen, makes the design orderable; a failed read
      never does. */
  lemma LoadImageEnablesOrder(s: State, file: UploadedFile, result: Option<string>)
    requires IsImageType(file.mimeType) && file.name != ""
    requires s.selectedSize != "" && s.selectedMaterial != ""
    ensures CanCreateCustomProduct(LoadImage(s, Some(file), result))
        <==> result.Some? && result.value != ""
  {
  }

  /** The amount to pay never exceeds the subtotal and is never negative. */
  lemma TotalBounds(s: State)
    requires Valid(s)
    ensures 0.0 <= Total(s) <= Subtotal(s)
  {
  }

  /** With a promo of d percent in force, the amount to pay is the
      subtotal scaled by (100 - d) / 100, with d one of the registered 10 or 20. */
  lemma TotalWithPromo(s: State)
    requires Valid(s) && s.appliedPromo.Some?
    ensures var d := s.appliedPromo.value.discount;
      (d == 10 || d == 20) && Total(s) == Subtotal(s) * (100 - d) as real / 100.0
  {
  }

  /** An unrecognised code leaves the amount to pay as it was. */
  lemma UnknownCodeKeepsTotal(s: State)
    requires s.promoCode !in Registry
    ensures Total(ApplyPromoCode(s)) == Total(s)
  {
  }

  /** With an empty cart every amount is 0, whatever code is applied. */
  lemma EmptyCartTotals(s: State)
    requires s.cart == []
    ensures Subtotal(ApplyPromoCode(s)) == 0.0 && Total(ApplyPromoCode(s)) == 0.0
  {
  }

  /** Adding to the cart raises the subtotal by the chosen product's price. */
  lemma AddToCartSubtotal(s: State)
    requires CanAddToCart(s) && IdsDetermineProducts(s.cart, s.selectedProduct.value)
    ensures Subtotal(AddToCart(s)) == Subtotal(s) + CalculatePrice(s.selectedProduct.value)
  {
    AddLineSubtotal(s.cart, s.selectedProduct.value, s.selectedSize, s.selectedMaterial);
  }

  /** Ordering a custom design raises the subtotal by exactly 5800. */
  lemma CreateCustomProductSubtotal(s: State, id: int)
    requires CanCreateCustomProduct(s)
    ensures Subtotal(CreateCustomProduct(s, id)) == Subtotal(s) + 5800.0
  {
  }

  /** Choosing the same product, size and material twice from a fresh
      page gives one cart line of quantity 2, and the choices are reset. */
  lemma AddSameConfigurationTwice(p: Product, size: string, material: string)
    requires size != "" && material != ""
    ensures var once := AddToCart(Initial.(selectedProduct := Some(p), selectedSize := size,
                                           selectedMaterial := material));
      var twice := AddToCart(once.(selectedProduct := Some(p), selectedSize := size,
                                   selectedMaterial := material));
      && twice.cart == [CartItem(p, size, material, 2)]
      && twice.selectedProduct.None? && twice.selectedSize == "" && twice.selectedMaterial == ""
  {
  }

  /** Uploading "photo.jpg", choosing 3x4 m fleece and ordering it leaves
      one line named "photo" at 5800, and the upload dialog empty. */
  lemma CustomUploadScenario(dataUrl: string, id: int)
    requires dataUrl != ""
    ensures var loaded := LoadImage(Initial.(showCustomUpload := true),
                                    Some(UploadedFile("photo.jpg", "image/jpeg")), Some(dataUrl));
      var done := CreateCustomProduct(loaded.(selectedSize := "3x4м", selectedMaterial := "Флизелин"), id);
      && |done.cart| == 1
      && done.cart[0].product.name == "photo"
      && done.cart[0].quantity == 1
      && Subtotal(done) == 5800.0
      && done.customImage.None? && done.customImageName == "" && !done.showCustomUpload
  {
    assert IsImageType("image/jpeg");
    assert IsExtensionDot("photo.jpg", 5);
    var c := [CartItem(CustomProduct(id, "photo.jpg", dataUrl), "3x4м", "Флизелин", 1)];
    assert c[..0] == [];
  }

  /** The first sample order: one Mountain Dawn at its own 10 percent
      discount costs 4050; the welcome code then takes a further 10 percent. */
  lemma SampleOrderWithWelcomeCode()
    ensures var s := AddToCart(Initial.(selectedProduct := Some(MountainDawn),
                                        selectedSize := "3x4м", selectedMaterial := "Флизелин"));
      && Subtotal(s) == 4050.0
      && Total(ApplyPromoCode(s.(promoCode := "WELCOME10"))) == 3645.0
  {
    var c := [CartItem(MountainDawn, "3x4м", "Флизелин", 1)];
    assert c[..0] == [];
  }
}
