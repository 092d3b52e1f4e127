/** The storefront's data shapes (`Product`, `CartItem`), the static
    catalog, and the category filter of the catalog view. */
module Catalog {
  import opened Wrappers

  /** A wallpaper design. `price` is in whole currency units; `discount`
      is an optional percentage (absent on most products). */
  datatype Product = Product(
    id: int,
    name: string,
    category: string,
    style: string,
    price: int,
    discount: Option<int>,
    image: string,
    sizes: seq<string>,
    materials: seq<string>)

  /** A cart line: a copy of the product plus the configuration the
      customer chose and how many of it they ordered. */
  datatype CartItem = CartItem(
    product: Product,
    selectedSize: string,
    selectedMaterial: string,
    quantity: int)

  /** What makes two cart lines "the same configuration". */
  datatype LineKey = LineKey(id: int, size: string, material: string)

  function KeyOf(item: CartItem): LineKey {
    LineKey(item.product.id, item.selectedSize, item.selectedMaterial)
  }

  /** The pseudo-category that selects the whole catalog. */
  const AllCategories: string := "Все"

  const Sizes: seq<string> := ["2x3м", "3x4м", "4x5м"]
  const Materials: seq<string> := ["Флизелин", "Винил", "Бумага"]

  /** The hard-coded catalog the storefront ships with. */
  const MountainDawn := Product(1, "Горный рассвет", "Природа", "Пейзаж", 4500, Some(10),
    "https://images.unsplash.com/photo-1506905925346-21bda4d32df4?w=800", Sizes, Materials)
  const TropicalForest := Product(2, "Тропический лес", "Природа", "Ботанический", 5200, None,
    "https://images.unsplash.com/photo-1542273917363-3b1817f69a2d?w=800", Sizes, Materials)
  const CityLights := Product(3, "Городские огни", "Города", "Урбан", 4800, Some(15),
    "https://images.unsplash.com/photo-1514565131-fce0801e5785?w=800", Sizes, Materials)
  const WatercolourAbstract := Product(4, "Абстракция акварель", "Абстракция", "Художественный", 6000, None,
    "https://images.unsplash.com/photo-1541961017774-22349e4a1262?w=800", Sizes, Materials)
  const OceanWave := Product(5, "Океанская волна", "Природа", "Морской", 4700, None,
    "https://images.unsplash.com/photo-1505142468610-359e7d316be0?w=800", Sizes, Materials)
  const GeometricMinimalism := Product(6, "Минимализм геометрия", "Абстракция", "Минимализм", 5500, Some(20),
    "https://images.unsplash.com/photo-1557672172-298e090bd0f1?w=800", Sizes, Materials)

  const Products: seq<Product> :=
    [MountainDawn, TropicalForest, CityLights, WatercolourAbstract, OceanWave, GeometricMinimalism]

  /** Keeps, in order, the products whose category is exactly `category`. */
  function FilterByCategory(products: seq<Product>, category: string): (r: seq<Product>)
    ensures |r| <= |products|
    ensures forall i :: 0 <= i < |r| ==> r[i].category == category
    ensures (forall i :: 0 <= i < |products| ==> products[i].category == category) ==> r == products
  {
    if |products| == 0 then []
    else if products[0].category == category then [products[0]] + FilterByCategory(products[1..], category)
    else FilterByCategory(products[1..], category)
  }

  /** The products the catalog grid shows for the selected category tab. */
  function FilteredProducts(products: seq<Product>, selected: string): (r: seq<Product>)
    ensures selected == AllCategories ==> r == products
    ensures selected != AllCategories ==>
      forall p :: p in r <==> p in products && p.category == selected
  {
    if selected == AllCategories then products
    else
      FilterByCategoryMembers(products, selected);
      FilterByCategory(products, selected)
  }

  /** A product survives the filter exactly when it is in the input and
      belongs to the category. */
  lemma {:induction false} FilterByCategoryMembers(products: seq<Product>, category: string)
    ensures forall p :: p in FilterByCategory(products, category) <==> p in products && p.category == category
  {
    if |products| > 0 {
      FilterByCategoryMembers(products[1..], category);
      assert products == [products[0]] + products[1..];
    }
  }

  /** Filtering distributes over concatenation: the filter keeps the
      relative order of the products it keeps. */
  lemma {:induction false} FilterByCategoryAppend(a: seq<Product>, b: seq<Product>, category: string)
    ensures FilterByCategory(a + b, category) == FilterByCategory(a, category) + FilterByCategory(b, category)
  {
    if |a| == 0 {
      assert a + b == b;
    } else {
      assert (a + b)[1..] == a[1..] + b;
      FilterByCategoryAppend(a[1..], b, category);
    }
  }

  /** Filtering twice by the same category is filtering once. */
  lemma FilterByCategoryIdempotent(products: seq<Product>, category: string)
    ensures FilterByCategory(FilterByCategory(products, category), category) == FilterByCategory(products, category)
  {
  }

  /** The "nature" tab of the catalog view shows products 1, 2 and 5, in
      catalog order; the "all" tab shows the whole catalog. */
  lemma NatureTab()
    ensures FilteredProducts(Products, "Природа") == [MountainDawn, TropicalForest, OceanWave]
    ensures FilteredProducts(Products, AllCategories) == Products
  {
    var c := "Природа";
    var (a, b, d, e, f, g) :=
      (MountainDawn, TropicalForest, CityLights, WatercolourAbstract, OceanWave, GeometricMinimalism);
    assert FilterByCategory([g], c) == [];
    assert [f, g][1..] == [g];
    assert FilterByCategory([f, g], c) == [f];
    assert [e, f, g][1..] == [f, g];
    assert FilterByCategory([e, f, g], c) == [f];
    assert [d, e, f, g][1..] == [e, f, g];
    assert FilterByCategory([d, e, f, g], c) == [f];
    assert [b, d, e, f, g][1..] == [d, e, f, g];
    assert FilterByCategory([b, d, e, f, g], c) == [b, f];
    assert Products[1..] == [b, d, e, f, g];
  }
}
