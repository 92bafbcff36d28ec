# Amadeus II shop: checkout, cart persistence and product tables

This project models the logic of the Amadeus II web shop that decides what
happens to an order and to the cart. The rest of the shop is view code. Each
module below is listed with the source file it models.

- **`OrderDraft`** (`www/components/cart_form.js`): the checkout form's order
  record and its two address records (billing and shipping). Every handler of
  the form replaces one field of one of these records and keeps the rest.
- **`Checkout`** (`www/components/cart_form.js`): the checkout form as a class
  holding the page's cart and order. It also holds what the handlers do to the
  page: controls marked `~critical`, controls scrolled into view, the terms
  checkbox's `required` attribute, requests sent, carts saved and alerts
  dispatched. The submit handler is modelled in full:
  - the validity scan over the required controls, in document order;
  - the late marking of the terms checkbox as required, which blocks the next
    attempt rather than the current one;
  - the request carrying the cart string;
  - the replacement of the local cart when the server answers with another one.
- **`CartWire`** (`www/components/cart_form.js`): the cart string of the
  checkout request, `URL|Quantity` pairs joined by commas, together with a
  decoder. The decoder inverts the string as long as no URL contains a
  separator.
- **`LocalState`** (`src/state/localStorage.js`): `loadState` and `saveState`
  over the browser's key-value store, under the key `amadeus-cart`. Both fail
  soft.
- **`Products`** (`kasa/core/products.go`): the catalogue service's product
  operations over a database whose tables are maps:
  - the validation chain;
  - "id 0 means create" for brands, categories and features;
  - `ProductCreate`;
  - `ProductUpdate`, with its existence check and its delete-then-insert
    replacement of the child rows;
  - `ProductGet`, light or full.
- **`ItemPage`** (`src/templates/item.tsx`): the product page's cart quantity,
  remaining stock and "Add to cart" button.
- **`HomePage`** (`www/pages/index.js`): the popular-category list and the
  featured products.
- **`Header`** (`src/components/header.js`): the cart counter.

The model does not decide what code it cannot see. Each such collaborator is
a parameter, and the lemmas state what they assume about it:
- `checkValidity` of a text input is `textValid`;
- `JSON.stringify` of a cart is `stringify`;
- the JSON codec of the stored state is a `Codec`;
- the engine's `sort` is `arrange`, of which only that it permutes is assumed;
- `slug.Make` is `slug`;
- the database clock is `now`;
- the server's answer is `response`.

## Model

| member | source | states |
|---|---|---|
| OrderDraft.SetDataProperty | www/components/cart_form.js:174-182 | an address-form edit sets the chosen field to the new value and leaves every other field of the record as it was |
| OrderDraft.DataExtensionality | www/components/cart_form.js:243 | two address records agreeing on every field are equal, so the setter's two ensures fix its result |
| OrderDraft.SetOrderProperty | www/components/cart_form.js:6-11 | `setOrderProperty(p)(v)` gives an order whose field `p` is `v` and whose every other field is unchanged |
| OrderDraft.OrderExtensionality | www/components/cart_form.js:6-11 | two orders agreeing on every field are equal |
| OrderDraft.SetPartyField | www/components/cart_form.js:16-28 | an edit inside the billing (or shipping) form replaces that record by the edited one and keeps the other record and every other order field |
| OrderDraft.ToggleShippingKeepsShippingData | www/components/cart_form.js:17-30 | the "same data" checkbox flips `useShippingData`, never clears `shippingData`, and two clicks restore the order |
| OrderDraft.PaymentMethodKeepsCardFields | www/components/cart_form.js:42-74 | choosing any payment method keeps `cardType` and `installments` |
| CartWire.IntToString | www/components/cart_form.js:136 | the printed quantity is never empty and holds neither separator, so it cannot split a piece or an entry |
| CartWire.IntToStringRoundTrip | www/components/cart_form.js:136 | printing a quantity as JavaScript does below 10^21 and parsing the text back gives the quantity |
| CartWire.EntryText | www/components/cart_form.js:136 | one line's piece `URL|Quantity` decodes to that URL and quantity when the URL holds no bar, and holds no comma when the URL holds none |
| CartWire.SplitJoin | www/components/cart_form.js:136 | `join` with a separator that no part contains is undone by splitting at that separator |
| CartWire.Serialize | www/components/cart_form.js:136 | the cart string is empty exactly for the empty cart |
| CartWire.DecodeSerialize | www/components/cart_form.js:136 | decoding the cart string gives each line's URL and quantity in cart order, when no URL holds a comma or a bar |
| Checkout.RequiredInputs | www/components/cart_form.js:187-264 | a data form requires seven inputs in document order: company name and OIB for a company, first and last name for a person, then address, postal code, city, e-mail and phone |
| Checkout.Shown | www/components/cart_form.js:187-264 | the input at a position of a data form shows a text field of the record, the one `RequiredInputs` lists there for the record's company flag |
| Checkout.RequiredControls | www/components/cart_form.js:14-30 | the required controls are the seven billing inputs, the seven shipping inputs exactly while the shipping form is shown, and the terms checkbox, last, exactly when it carries `required` |
| Checkout.EditChangesOnlyItsOwnCheck | www/components/cart_form.js:121 | typing into one input leaves the check (`checkValidity`) of every other control as it was: the terms box, the other form, the other inputs of the same form |
| Checkout.Scan | www/components/cart_form.js:117-129 | `valid` ends true iff every check passes; every failing position is collected; only the first failing position is reported for scrolling |
| Checkout.ScanResult | www/components/cart_form.js:120-129 | the scan's failing positions are exactly the failing controls, and `valid` holds iff every required control passes |
| Checkout.ReconcileMessageNamesButton | www/components/cart_form.js:146-148 | the alert names "Plati karticom" iff the payment method is "kartica", "Naruči" otherwise, the same label the button shows |
| Checkout.ReconcileAlert | www/components/cart_form.js:146-152 | the alert is critical, with the alert-circle icon and a 10000 ms timeout, and names the submit button by its label |
| Checkout.ReconcileIffCartsDiffer | www/components/cart_form.js:142 | with an injective serialisation, the cart is replaced exactly when the server's cart differs |
| Checkout.RequiredTermsMustBeTicked | www/components/cart_form.js:130 | once the terms checkbox is required, no attempt passes the scan while it is unticked |
| Checkout.UnrequiredTermsIgnored | www/components/cart_form.js:117-131 | while the terms checkbox is not required, its state does not affect the scan |
| Checkout.UntickedTermsBlockNextAttempt | www/components/cart_form.js:130-131 | with valid inputs and unticked terms, the first attempt passes the scan and the next one is blocked |
| Checkout.CheckoutForm.constructor | www/components/cart_form.js:5 | the form starts with the page's cart and order, no marks, scrolls, requests or alerts |
| Checkout.CheckoutForm.SetProperty | www/components/cart_form.js:21-91 | a form control's handler replaces the order by `setOrderProperty` of it; when the shipping form is hidden its inputs unmount and lose their marks; marks stay only on mounted controls |
| Checkout.CheckoutForm.EditData | www/components/cart_form.js:174-243 | a radio button or select of an address form stores the edited address record; marks stay on their elements, so after a company/person switch a mark sits on the input now showing the other field |
| Checkout.CheckoutForm.EditInput | www/components/cart_form.js:268-287 | the input at a position stores its text in the field it shows and removes its own `~critical` mark exactly when the new text is valid |
| Checkout.CheckoutForm.ToggleTerms | www/components/cart_form.js:99-102 | the terms checkbox flips `terms` and drops its `required` attribute |
| Checkout.CheckoutForm.MarkInvalid | www/components/cart_form.js:117-129 | every failing required control is marked `~critical`; exactly the first one is scrolled into view; the result says whether all passed |
| Checkout.CheckoutForm.Send | www/components/cart_form.js:132-153 | one request goes out with the order and the cart string; a different server cart replaces the cart, is saved, and raises one critical alert with a 10000 ms timeout; otherwise nothing else changes |
| Checkout.CheckoutForm.Submit | www/components/cart_form.js:116-156 | the scan decides before the terms become required; a blocked attempt sends nothing and keeps cart, saved cart and alerts; otherwise exactly one request, then the reconciliation rule |
| LocalState.LoadState | src/state/localStorage.js:2-12 | undefined when the storage cannot be read or nothing is stored under `amadeus-cart`; otherwise what parsing the stored text gives, undefined when it throws |
| LocalState.SaveState | src/state/localStorage.js:14-21 | writes the serialised state under `amadeus-cart` and nowhere else; a failed serialisation or write leaves the store as it was |
| LocalState.SaveThenLoad | src/state/localStorage.js:8-17 | after a successful save, a load returns `parse(stringify(s))`, which is `s` for a state that survives the JSON round trip |
| Products.Validate | kasa/core/products.go:189-208 | the checks run in the order name, price, brand, category; the first failing one gives its message, and none fails exactly when all four are present |
| Products.ValidateReadsFourFields | kasa/core/products.go:343-362 | validation depends only on name, price, brand and category; a price is rejected only when it is 0, a negative one passes |
| Products.Database.BrandCreate | kasa/core/products.go:221-231 | a new brand row under a fresh positive id |
| Products.Database.CategoryCreate | kasa/core/products.go:233-242 | a new category row under a fresh positive id |
| Products.Database.LightProduct | kasa/core/products.go:48-59 | the light columns exist exactly when the product, its brand and its category exist; they are the stored row without the description, with the brand and category names |
| Products.Database.JoinFeatures | kasa/core/products.go:81-89 | every feature value whose feature row exists appears with that feature's name and flag, and every feature returned comes from such a value row |
| Products.Database.JoinPublications | kasa/core/products.go:91-99 | every linked publication that exists appears with its name, and every publication returned comes from such a link |
| Products.Database.JoinRecommendations | kasa/core/products.go:101-112 | every recommended product whose light columns exist appears as its light product, and every product returned is the light product of a link |
| Products.Database.ProductGet | kasa/core/products.go:45-116 | fails with "no rows" exactly when the light columns find nothing; light mode gives empty description and empty child lists; full mode adds the stored description and the product's image rows, in some order |
| Products.Database.InsertImages | kasa/core/products.go:258-266 | appends one image row per requested image, with its URL, under the product, and touches no other product |
| Products.CreatedIdsExactly | kasa/core/products.go:269-280 | the ids created for the requested features with id 0 are exactly the feature ids stored in those features' value rows |
| Products.FeaturesAddedStep | kasa/core/products.go:269-290 | storing one more feature value keeps that relation: a non-zero id leaves the feature table alone, id 0 adds one row under an id the table lacked |
| Products.CreatedIdsCount | kasa/core/products.go:269-280 | distinct created ids are as many as the requested features with id 0 |
| Products.FeatureTableGrowth | kasa/core/products.go:269-290 | the feature table grows by exactly the number of requested features with id 0 |
| Products.Database.InsertFeatureValue | kasa/core/products.go:270-290 | one pass: a feature with id 0 gets a feature row under an id not yet in the table, then one value row is appended under the product |
| Products.Database.InsertFeatureValues | kasa/core/products.go:269-290 | for a product without value rows, stores one value row per requested feature, in order, each with its value; a feature with id 0 first gets a new feature row in the product's category and the value is stored under that id; the feature table gains exactly those rows |
| Products.Database.InsertPublications | kasa/core/products.go:293-301 | appends the requested publication ids under the product, in order |
| Products.Database.InsertRecommendations | kasa/core/products.go:304-312 | appends the requested recommended product ids under the product, in order |
| Products.Database.InsertChildren | kasa/core/products.go:257-312 | the four insert loops give a product without child rows exactly the request's images, feature values (with the created features), publications and recommendations, and touch no other product |
| Products.Database.ResolveBrandAndCategory | kasa/core/products.go:393-414 | a zero brand or category id creates that row by name and uses its id; a non-zero id is kept and nothing is created |
| Products.Database.DeleteChildren | kasa/core/products.go:437-517 | the four deletes remove exactly the product's child rows |
| Products.Database.WriteProduct | kasa/core/products.go:245-312 | the product row is written, the child rows become exactly the request's lists, and the feature table gains exactly the features the request creates |
| Products.Database.ReadBack | kasa/core/products.go:322-328 | the result of create and update is the product read back in full, or the zero product and the read's error |
| Products.Database.ProductCreate | kasa/core/products.go:178-329 | an invalid request returns its message and changes nothing; otherwise the URL is the slug of the name, brand and category are resolved, a fresh id gets a row stamped `now`, the child rows are exactly the request's, and the product is read back |
| Products.Database.CreateValidated | kasa/core/products.go:211-312 | the statements after validation store the request under a fresh id with its resolved ids and its child rows |
| Products.Database.ProductUpdate | kasa/core/products.go:332-545 | an invalid request or a missing product ("Proizvod ne postoji", also for id 0) changes nothing; otherwise the row is rewritten with its old `created_at`, the child rows become exactly the request's, other products' rows stay, and the product is read back |
| Products.Database.UpdateExisting | kasa/core/products.go:365-528 | the statements after the existence check replace the product's row and child rows as the request says |
| Products.Database.WrittenProductReadsBack | kasa/core/products.go:45-116 | a product written with an existing brand and category reads back with the written columns and the request's image URLs (as a multiset), and with as many features and publications as requested when those all exist |
| ItemPage.Matches | src/templates/item.tsx:49 | the filter keeps only lines for the product, is empty exactly when no line is for it, and starts with the first such line |
| ItemPage.CartQuantity | src/templates/item.tsx:49-50 | `cqt` is the first matching line's `cqt`, and 0 when no line matches |
| ItemPage.ItemDetails | src/templates/item.tsx:115-119 | the remaining stock is `qt - cqt`; the button is disabled exactly when that is 0; a click adds the whole item record |
| ItemPage.DetailsWithoutCartLine | src/templates/item.tsx:50-119 | without a cart line the whole stock shows, and the button is disabled exactly when the stock is 0 |
| ItemPage.DetailsWithCartLine | src/templates/item.tsx:49-119 | with a cart line the stock shown is `qt` less its `cqt`; a negative remainder leaves the button enabled |
| HomePage.WithoutShop | www/pages/index.js:15 | the filter keeps every category except those with the shop's slug, each as often as in the input |
| HomePage.PopularCategories | www/pages/index.js:14-17 | at most six categories, as many as the filtered list allows, none the shop's own, each drawn from the input no more often than it occurs there |
| HomePage.Links | www/pages/index.js:18-24 | one link per category, with its id as key, its slug as target and its name as text |
| HomePage.PopularLinks | www/pages/index.js:14-24 | at most six links, none to the shop's category, each to a category of the input |
| HomePage.FeaturedProducts | www/pages/index.js:29 | the products of the first category with the shop's slug, and none (the access throws) when there is no such category |
| Header.CartCount | src/components/header.js:52 | the counter, a fold from the left, is the sum of the quantities of all lines, 0 for an empty cart |
| Header.CountAppend | src/components/header.js:52 | adding a line raises the counter by that line's quantity |
| Header.SumPermutation | src/components/header.js:52 | the sum of the quantities is the same for any reordering of the lines |
| Header.CountPermutation | src/components/header.js:52 | the counter does not depend on the order of the lines |

## Left out

- Network: the checkout `fetch` and `res.json()` are the parameter `response`, with None for an answer that cannot be read. Redirects after checkout are not in the source either.
- The server's answer without a `Cart` field (`json.Cart` undefined) cannot be expressed, because `response` carries a cart. The source would then replace the cart by `undefined`.
- DOM effects: scrolling is recorded as the scrolled control, and the drawer scroll and `console.log` are dropped. `checkValidity` is `textValid`, and a required checkbox is valid exactly when ticked.
- `cartSave` of `www/helpers/cart` is recorded as the `savedCart` field. That helper and the price helpers are not part of this model, and no pricing rule is modelled.
- Checkout.CheckoutForm.Send: `JSON.stringify` of a cart is an opaque parameter. The reconciliation lemma assumes it is injective, and it says nothing about key order or number formatting.
- `setOrderProperty` is curried in the source; the model takes the field and the value together. The field/value kinds are checked by a precondition that stands for the JavaScript shape of each call site.
- The coupon is only stored; it has no effect in this code.
- The alert queue's timing and display are out of scope. Only the dispatched alert and its arguments are modelled.
- The async handler is modelled as one atomic step. Interleavings with other handlers while `fetch` is pending are not modelled.
- LocalState.SaveState: a storage that throws on every access is the `enabled` flag, and a refused write (quota) is `writeRefused`. `JSON.stringify` returning `undefined` for a state with no JSON form is one more `Codec`, whose stringify yields the text it stores.
- ItemPage.ItemDetails: quantities are integers. JavaScript's `NaN` for a cart line without `cqt`, and non-integer numbers, are not modelled.
- Products.Database.ProductGet: the images are stated as a multiset, and the joined features, publications and recommendations by membership and by length bounds, not in order, because the SQL has no `ORDER BY` and leaves row order to the database. The model keeps insertion order.
- Products.Database.WrittenProductReadsBack: the image URLs read back are stated as a multiset, for the same reason.
- CartWire.IntToString: quantities of magnitude 10^21 or more, which JavaScript prints in exponent notation (`1e+21`), are printed in full decimal here. Cart quantities stay far below.
- Products: the SQL text, transactions, logging and every database error are left out. So are `mapstructure.Decode` failures and the missing rollback on error paths. Each operation is modelled on the path where every statement succeeds, apart from the validation errors, the missing product of an update and the empty final read.
- Products: `BrandCreate` and `CategoryCreate` are reduced to inserting a named row under a fresh id. They run outside the transaction in the source, which this model does not distinguish.
- Products: all serial columns draw from one counter. Fresh ids are what matters; their actual values are not modelled.
- Products.Database.UpdateExisting: the four deletes run before the four insert loops instead of alternating with them. The tables are disjoint, so the final state is the same.
- Products: foreign keys are not enforced. A child row naming a missing feature, publication or product is stored and then dropped by the inner joins of `ProductGet`.
- `ProductList`, `ProductSearch` and `ProductCheck` are listing queries outside the create/update/get core and are not modelled.
- HomePage.PopularLinks: the order of the listed categories is not stated. The comparator returns a boolean, so the order `sort` leaves is up to the engine; only that `sort` permutes is assumed.
- `getStaticProps` (fetching the categories) and all rendering markup are left out.
