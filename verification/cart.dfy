/** The cart as a sequence of configured lines, and "add to cart": bump
    the quantity of the line with the same (product id, size, material),
    or append a fresh line with quantity 1. */
module Cart {
  import opened Wrappers
  import opened Catalog
  import opened Pricing

  /** The index of the first line whose configuration is `key`, as the
      storefront's left-to-right `find` locates it. */
  function FindLine(cart: seq<CartItem>, key: LineKey): (r: Option<nat>)
    ensures r.Some? ==> r.value < |cart| && KeyOf(cart[r.value]) == key
    ensures r.Some? ==> forall j :: 0 <= j < r.value ==> KeyOf(cart[j]) != key
    ensures r.None? ==> forall j :: 0 <= j < |cart| ==> KeyOf(cart[j]) != key
  {
    if |cart| == 0 then None
    else if KeyOf(cart[0]) == key then Some(0)
    else match FindLine(cart[1..], key)
      case Some(i) => Some(i + 1)
      case None => None
  }

  /** Adds one item of `product` in the chosen configuration. Only the
      line that `find` returned is bumped: every line is a distinct
      object, and the storefront compares lines by reference. */
  function AddLine(cart: seq<CartItem>, product: Product, size: string, material: string): (r: seq<CartItem>)
    ensures var found := FindLine(cart, LineKey(product.id, size, material));
      found.Some? ==>
        && |r| == |cart|
        && r[found.value] == cart[found.value].(quantity := cart[found.value].quantity + 1)
        && forall j :: 0 <= j < |r| && j != found.value ==> r[j] == cart[j]
    ensures FindLine(cart, LineKey(product.id, size, material)).None? ==>
      && |r| == |cart| + 1
      && r[..|cart|] == cart
      && r[|cart|] == CartItem(product, size, material, 1)
  {
    match FindLine(cart, LineKey(product.id, size, material))
    case Some(i) => cart[i := cart[i].(quantity := cart[i].quantity + 1)]
    case None => cart + [CartItem(product, size, material, 1)]
  }

  /** No two lines share a configuration. */
  predicate UniqueKeys(cart: seq<CartItem>) {
    forall i, j :: 0 <= i < j < |cart| ==> KeyOf(cart[i]) != KeyOf(cart[j])
  }

  /** Every line holds at least one item. */
  predicate PositiveQuantities(cart: seq<CartItem>) {
    forall i :: 0 <= i < |cart| ==> cart[i].quantity >= 1
  }

  predicate CartInvariant(cart: seq<CartItem>) {
    UniqueKeys(cart) && PositiveQuantities(cart)
  }

  /** The configurations present in the cart. */
  function Keys(cart: seq<CartItem>): set<LineKey> {
    set i | 0 <= i < |cart| :: KeyOf(cart[i])
  }

  /** Adding keeps configurations unique and quantities positive. */
  lemma AddLinePreservesInvariant(cart: seq<CartItem>, product: Product, size: string, material: string)
    requires CartInvariant(cart)
    ensures CartInvariant(AddLine(cart, product, size, material))
  {
  }

  /** After adding, the configurations in the cart are the old ones plus
      the one just added. */
  lemma AddLineKeys(cart: seq<CartItem>, product: Product, size: string, material: string)
    ensures Keys(AddLine(cart, product, size, material)) == Keys(cart) + {LineKey(product.id, size, material)}
  {
  }

  /** Within the cart, a product id always names the same product. */
  predicate IdsDetermineProducts(cart: seq<CartItem>, product: Product) {
    forall i :: 0 <= i < |cart| && cart[i].product.id == product.id ==> cart[i].product == product
  }

  /** Adding one item raises the subtotal by exactly that item's price,
      whether it merged into an existing line or started a new one. */
  lemma AddLineSubtotal(cart: seq<CartItem>, product: Product, size: string, material: string)
    requires IdsDetermineProducts(cart, product)
    ensures CartTotal(AddLine(cart, product, size, material)) == CartTotal(cart) + CalculatePrice(product)
  {
    var key := LineKey(product.id, size, material);
    match FindLine(cart, key)
    case Some(k) =>
      var old_ := cart[k];
      var new_ := old_.(quantity := old_.quantity + 1);
      assert AddLine(cart, product, size, material) == cart[k := new_];
      CartTotalUpdate(cart, k, new_);
      assert old_.product == product;
      LineTotalBump(old_);
    case None =>
      var line := CartItem(product, size, material, 1);
      CartTotalAppend(cart, [line]);
      assert [line][..0] == [];
  }

  /** One more item on a line adds one item's price to the line total. */
  lemma LineTotalBump(item: CartItem)
    ensures LineTotal(item.(quantity := item.quantity + 1)) == LineTotal(item) + CalculatePrice(item.product)
  {
  }

  /** Adding the same configuration twice to an empty cart gives one line
      of quantity 2, not two lines. */
  lemma AddSameTwice(product: Product, size: string, material: string)
    ensures AddLine(AddLine([], product, size, material), product, size, material)
      == [CartItem(product, size, material, 2)]
  {
  }

  /** The same product in two materials makes two separate lines. */
  lemma AddTwoMaterials(product: Product, size: string, m1: string, m2: string)
    requires m1 != m2
    ensures AddLine(AddLine([], product, size, m1), product, size, m2)
      == [CartItem(product, size, m1, 1), CartItem(product, size, m2, 1)]
  {
  }
}
