# Wallpaper storefront: session state as pure functions

The storefront is a single page for ordering printed photo wallpaper. It has
a catalog with category tabs, a product dialog in which the customer picks a
size and a material, a cart that merges identical configurations, two promo
codes, and an upload dialog that turns the customer's own image into a
fixed-price product. In the source, all of this is `useState` hooks and
closures inside one React component. Here it is one immutable record,
`Session.State`, with one pure function per user action that has logic.

Modules, one per concern of `src/pages/Index.tsx`:

- `Wrappers`: `Option`, standing for the source's `null`, `undefined` and optional fields.
- `Catalog`: `Product`, `CartItem`, the configuration key of a line, the six-product catalog and the category filter.
- `Promo`: the code registry (`WELCOME10` gives 10 percent, `LOYAL20` gives 20) and applying a code.
- `Pricing`: a product's own discount, the cart subtotal, the promo discount and the amount to pay.
- `Cart`: finding a line by configuration and adding to the cart.
- `FileName`: removing the extension from an uploaded file's name, and the image media-type test.
- `Session`: the page state and its actions (add to cart, apply promo, load/clear image, order a custom design).

Amounts are exact rationals (`real`). The source divides with JavaScript's
floating-point `/`. The model divides exactly and does no rounding.

An absent discount and a discount of 0 both mean "no discount", because the
source tests `product.discount` for truthiness. Likewise `customImage` is
missing when it is `null` or the empty string.

"Choose another image" clears only the image and its name
(`src/pages/Index.tsx:780-783`). A size and material already chosen stay
selected (`Session.ChooseAnotherImage`).

A state is *valid* (`Session.Valid`) when:
- no two cart lines share a configuration;
- every quantity is at least 1;
- every cart line and the product in the dialog, if any, has a non-negative price and a discount of at most 100 percent;
- the applied promo, if any, is one the registry produced.

Every action preserves validity, so the amount to pay is never negative.

## Model

| member | source | states |
|---|---|---|
| Catalog.FilterByCategory | src/pages/Index.tsx:152-155 | the filter keeps only products of the category, never grows the list, and returns the list unchanged when every product matches |
| Catalog.FilterByCategoryMembers | src/pages/Index.tsx:152-155 | a product is in the filtered list exactly when it is in the input and has the category |
| Catalog.FilterByCategoryAppend | src/pages/Index.tsx:152-155 | filtering distributes over concatenation, so the filter preserves catalog order |
| Catalog.FilterByCategoryIdempotent | src/pages/Index.tsx:152-155 | filtering twice by one category equals filtering once |
| Catalog.FilteredProducts | src/pages/Index.tsx:152-155 | the "Все" tab shows the whole catalog; any other tab shows exactly the products of that category |
| Catalog.NatureTab | src/pages/Index.tsx:39-104 | on the shipped catalog the nature tab shows products 1, 2 and 5 in that order |
| Promo.ApplyCode | src/pages/Index.tsx:196-202 | a registered code replaces the applied promo with its registry percentage; any other text leaves the applied promo as it was |
| Promo.RegisteredDiscountBounds | src/pages/Index.tsx:196-202 | every registered percentage is 10 or 20 |
| Promo.ApplyCodeKeepsValid | src/pages/Index.tsx:196-202 | applying a code never leaves an unregistered promo in force |
| Promo.ApplyCodeIdempotent | src/pages/Index.tsx:196-202 | applying the same code twice equals applying it once |
| Promo.ApplyCodeLastWins | src/pages/Index.tsx:196-202 | codes do not stack: the last registered code applied decides the promo |
| Pricing.CalculatePrice | src/pages/Index.tsx:157-161 | with no (or a zero) discount the price is the base price; otherwise it is price·(100−d)/100, and a well-priced product's price lies in [0, base price] |
| Pricing.CartTotal | src/pages/Index.tsx:247 | the subtotal of an empty cart is 0 and that of a well-priced cart is non-negative |
| Pricing.PromoDiscount | src/pages/Index.tsx:248 | with no promo nothing is taken off; with a promo of at most 100 percent the amount taken off lies in [0, subtotal] |
| Pricing.FinalTotal | src/pages/Index.tsx:249 | with no promo the amount to pay is the subtotal; with d percent it is subtotal·(100−d)/100 and lies in [0, subtotal] |
| Pricing.CartTotalAppend | src/pages/Index.tsx:247 | the subtotal of two carts laid end to end is the sum of their subtotals |
| Pricing.CartTotalPermutation | src/pages/Index.tsx:247 | two carts holding the same lines in any order have the same subtotal |
| Pricing.CartTotalUpdate | src/pages/Index.tsx:247 | replacing one line changes the subtotal by exactly the difference of the two line totals |
| Pricing.MountainDawnPrice | src/pages/Index.tsx:105-121 | 4500 at 10 percent costs 4050, the total of the first sample order |
| Pricing.CityLightsPrice | src/pages/Index.tsx:122-134 | 4800 at 15 percent costs 4080, the total of the second sample order |
| Pricing.PromoExamples | src/pages/Index.tsx:247-249 | WELCOME10 on 4500 takes off 450 leaving 4050; LOYAL20 on 4800 takes off 960 leaving 3840 |
| Cart.FindLine | src/pages/Index.tsx:166-171 | the result is the first line with the given configuration, or none when no line has it |
| Cart.AddLine | src/pages/Index.tsx:166-188 | when the configuration is present, only that first matching line gains one item and the length is unchanged; otherwise exactly one line of quantity 1 is appended after the unchanged old lines |
| Cart.AddLinePreservesInvariant | src/pages/Index.tsx:166-188 | adding keeps configurations unique within the cart and every quantity at least 1 |
| Cart.AddLineKeys | src/pages/Index.tsx:166-188 | after adding, the cart's configurations are the old ones plus the added one |
| Cart.LineTotalBump | src/pages/Index.tsx:174-178 | one more item on a line adds exactly one item's price to that line's total |
| Cart.AddLineSubtotal | src/pages/Index.tsx:166-188 | when ids identify products, adding raises the subtotal by the product's price, whether it merged or appended |
| Cart.AddSameTwice | src/pages/Index.tsx:166-188 | the same configuration added twice to an empty cart gives one line of quantity 2 |
| Cart.AddTwoMaterials | src/pages/Index.tsx:166-188 | the same product and size in two materials gives two lines |
| FileName.ExtensionDotUnique | src/pages/Index.tsx:221 | the extension pattern can match at one position at most |
| FileName.ExtensionDot | src/pages/Index.tsx:221 | it finds the position where the extension pattern matches, or reports that it matches nowhere |
| FileName.StripExtension | src/pages/Index.tsx:221 | where the pattern matches, the name is cut at the matched dot; otherwise the name is unchanged; the result is always a prefix of the name |
| FileName.StripExtensionExamples | src/pages/Index.tsx:221 | "a.b.png" becomes "a.b", while "noext", "file." and "dir.v2/photo" are kept whole |
| Session.AddToCart | src/pages/Index.tsx:163-194 | without a product, a size and a material nothing changes; otherwise the cart is updated by adding the configuration, the three choices are cleared, and nothing else changes |
| Session.ApplyPromoCode | src/pages/Index.tsx:196-202 | a registered code in the promo box sets the applied promo; any other text changes nothing; no other field ever changes |
| Session.LoadImage | src/pages/Index.tsx:204-214 | for an image file the reader's result (absent when the read failed or was aborted) becomes the custom image and the file name is recorded either way; no file, or a non-image file, changes nothing; nothing else changes |
| Session.ChooseAnotherImage | src/pages/Index.tsx:778-784 | the image and its name are cleared and nothing else changes |
| Session.LoadImagePreservesValid | src/pages/Index.tsx:204-214 | loading an image keeps the state valid |
| Session.ChooseAnotherImagePreservesValid | src/pages/Index.tsx:778-784 | choosing another image keeps the state valid |
| Session.ChooseAnotherImageBlocksOrder | src/pages/Index.tsx:778-784 | after choosing another image the design cannot be ordered, and "order" changes nothing |
| Session.LoadImageEnablesOrder | src/pages/Index.tsx:204-217 | with a size and material chosen, loading an image file with a non-empty name makes the design orderable exactly when the read produced a non-empty result |
| Session.CustomProduct | src/pages/Index.tsx:218-228 | the synthesised product has the given id, the file name without its extension, price 5800 with no discount, and the standard sizes and materials |
| Session.CreateCustomProduct | src/pages/Index.tsx:216-245 | without an image, a name, a size and a material nothing changes; otherwise exactly one quantity-1 line for the custom product is appended, never merged, and the image, name, size, material and dialog flag are reset |
| Session.InitialValid | src/pages/Index.tsx:137-147 | the state on page load has an empty cart, no promo and no product chosen, so it is valid |
| Pricing.CatalogWellPriced | src/pages/Index.tsx:39-104 | every catalog product has a non-negative price and a discount of at most 100 percent |
| Session.SelectProductPreservesValid | src/pages/Index.tsx:459 | opening the dialog of any catalog product, or closing it, keeps the state valid |
| Session.AddToCartPreservesValid | src/pages/Index.tsx:163-194 | adding to the cart keeps the state valid |
| Session.ApplyPromoCodePreservesValid | src/pages/Index.tsx:196-202 | applying a promo keeps the state valid |
| Session.CreateCustomProductPreservesValid | src/pages/Index.tsx:216-245 | with an id no line uses, ordering a custom design keeps the state valid |
| Session.TotalBounds | src/pages/Index.tsx:247-249 | in every valid state the amount to pay lies in [0, subtotal] |
| Session.TotalWithPromo | src/pages/Index.tsx:247-249 | with a promo in force its percentage d is 10 or 20, and the amount to pay is subtotal·(100−d)/100 |
| Session.UnknownCodeKeepsTotal | src/pages/Index.tsx:196-202 | applying an unrecognised code leaves the amount to pay unchanged |
| Session.EmptyCartTotals | src/pages/Index.tsx:247-249 | with an empty cart the subtotal and the amount to pay are 0 whatever code is applied |
| Session.AddToCartSubtotal | src/pages/Index.tsx:163-194 | when ids identify products, adding to the cart raises the subtotal by the chosen product's price |
| Session.CreateCustomProductSubtotal | src/pages/Index.tsx:216-245 | ordering a custom design raises the subtotal by exactly 5800 |
| Session.AddSameConfigurationTwice | src/pages/Index.tsx:163-194 | choosing and adding the same configuration twice from page load gives one line of quantity 2, with the choices cleared |
| Session.CustomUploadScenario | src/pages/Index.tsx:204-245 | uploading "photo.jpg", choosing 3x4 m fleece and ordering gives one line named "photo" costing 5800, and leaves the upload dialog empty |
| Session.SampleOrderWithWelcomeCode | src/pages/Index.tsx:163-249 | one Mountain Dawn costs 4050, and 3645 after WELCOME10 |

## Left out

- Rendering: the JSX, dialogs, sheets, tabs, icons and styling (`src/pages/Index.tsx:277-912`) only display the state.
- UI setters: the one-line handlers that set the category, product, size, material, promo text or dialog flag are written as record updates (`s.(selectedSize := …)`) where a lemma needs them.
- The product dialog's `onOpenChange` close handler is not modelled as an action.
- `activeView`: the catalog/profile switch has no logic.
- `FileReader`: the read is asynchronous. `Session.LoadImage` models its completion (`onloadend`, which also fires on a failed or aborted read) as one atomic step and takes the reader's result as a parameter. The race between two overlapping reads is not modelled.
- `Date.now()`: the clock reading used as the custom product's id is a parameter of `Session.CreateCustomProduct`. Key uniqueness after it needs the id to be new (`Session.FreshId`).
- Floating point: JavaScript's float arithmetic, and `toLocaleString`/`toLocaleDateString` formatting, are replaced by exact rationals.
- NaN and non-integer discounts: `discount` is an integer, so a NaN discount (also falsy in the source) cannot be expressed.
- `mockOrders`, `getStatusIcon` and `getStatusText`: the orders are static sample data, used only as test values for prices. The status labels are plain lookups.
- Checkout and the profile view: display-only stubs with no logic.
- Size and material membership: the source does not check that the chosen size and material are among the product's offered ones (only the dialog buttons limit them), so the model does not either.
- JavaScript's UTF-16 strings are modelled as sequences of characters. The extension pattern only distinguishes `.` and `/`, so the difference does not matter.
- Pricing.CartTotal: non-negativity is stated only for well-priced carts. The source accepts any number as a price or discount.
