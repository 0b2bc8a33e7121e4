# E-commerce book store: the cart engine and its neighbours, in Dafny

This project models the rules at the centre of the book store and proves what they guarantee.

- **Cart document and cart routes (the core).** The cart document (`backend/models/Cart.js`) is a class: an ordered sequence of line items, an optional discount code with its percentage, and a subtotal and total recomputed by every mutation. The cart routes (`backend/routes/cart.js`) work over an in-memory store of cart documents keyed by identity, plus the list of orders placed. They cover identity choice, input coercion, add, update, remove, discount, clear, checkout and the guest-to-user merge.
- **Catalogue listing (`backend/routes/products.js`).** The filter built from the query string, the sort table, and the page and limit arithmetic.
- **Catalogue clean-up (`backend/routes/admin.js`).** The digit, rating and price parsers, the per-product normalisation, and its `updated` counter.
- **Order document (`backend/models/Order.js`).** Its enumerations and bounds, `calculateTotals` and `updateStatus`.
- **Registration, login and profile update (`backend/routes/auth.js`).** Modelled over an in-memory sequence of users. Password hashing, password comparison and token generation are function parameters.
- **Product grid (`frontend/src/components/Products/ProductGrid.jsx`).** Key normalisation, `pick`, the lookup tables, rating, votes and price sanitising, the pager and filter state, and link normalisation.
- **Cart page (`frontend/src/components/Cart/Cart.jsx`).** The client-side reductions (subtotal, total, item count), the optimistic quantity, remove and clear transforms, and the checkout gate. Each is proved to agree with the server's model: the reductions with the stored totals, the transforms with the server's view after the same change, and the gate with the server checkout's empty-cart refusal.

Modules:

- `Wrappers`: Option, Response, and the JavaScript values these files handle.
- `Text`: digit filtering, decimal values, JavaScript trimming, ASCII lower-casing, price-string cleaning and link protocol fixing.
- One module per source file: `CartModel`, `CartRoutes`, `ProductQuery`, `CatalogueNormalise`, `OrderModel`, `AuthRoutes`, `ProductGrid`, `CartView`.

Numbers use exact arithmetic:

- prices and totals are `real`;
- quantities, pages and limits are `int`;
- a JavaScript `Number(...)` that may come out NaN or infinite is `Num<T>` (`Finite(v)` or `NonFinite`).

## Model

| member | source | states |
|---|---|---|
| CartModel.FindLine | backend/models/Cart.js:83-85 | `items.find`: the index of the first line for the product, and none exactly when no line has it |
| CartModel.LinesView | backend/models/Cart.js:163-176 | the JSON lines are the cart's lines one for one, each shown by the per-line projection |
| CartModel.DocView | backend/models/Cart.js:156-188 | `toJSON` keeps every line in order, and exposes the discount percentage as `discount` together with the stored subtotal and total |
| CartModel.RemovedSingle | backend/models/Cart.js:102-105 | a single line is dropped for its own product and kept for any other |
| CartModel.Cart.Load | backend/models/Cart.js:3-54 | a cart loaded from a document that meets the schema holds exactly that document |
| CartModel.Cart.CalculateTotals | backend/models/Cart.js:70-79 | subtotal becomes the sum of price times quantity, total becomes the subtotal less the discount percentage of itself; lines and discount are untouched |
| CartModel.Cart.AddItem | backend/models/Cart.js:82-99 | the lines become `Added(old lines)`; the discount is kept; the schema and uniqueness invariant still holds |
| CartModel.Cart.RemoveItem | backend/models/Cart.js:102-108 | the lines become the old ones without the product; the discount is kept; the invariant still holds |
| CartModel.Cart.UpdateQuantity | backend/models/Cart.js:111-126 | the lines become `QuantityUpdated(old lines)`; an absent product leaves the whole document as it was |
| CartModel.Cart.ClearCart | backend/models/Cart.js:129-135 | no lines, no code, zero percent, zero subtotal and total |
| CartModel.Cart.ApplyDiscount | backend/models/Cart.js:138-153 | true exactly for SAVE10, SAVE20 and WELCOME, which set the code and percentage; any other code leaves the document unchanged |
| CartModel.SubtotalNonNegative | backend/models/Cart.js:3-22 | with every line within the schema's bounds the subtotal is not negative |
| CartModel.TotalWithinSubtotal | backend/models/Cart.js:39-54 | a document meeting the schema has 0 <= total <= subtotal, and the total is the subtotal scaled by (1 - percent/100) |
| CartModel.SubtotalAppend | backend/models/Cart.js:71-73 | appending a line adds its price times quantity to the subtotal |
| CartModel.SubtotalUpdate | backend/models/Cart.js:71-73 | replacing one line changes the subtotal by the difference of the two line amounts |
| CartModel.AddedSubtotal | backend/models/Cart.js:82-96 | adding raises the subtotal by quantity times the unit price the line ends up with (the old price for an existing line) |
| CartModel.SubtotalGrowLine | backend/models/Cart.js:87-89 | growing one line's quantity raises the subtotal by its price times the added quantity |
| CartModel.AddedShape | backend/models/Cart.js:82-96 | an existing line grows by the quantity and keeps its price, every other line is unchanged; otherwise exactly one new line is appended |
| CartModel.AddedKeepsInvariants | backend/models/Cart.js:3-22 | adding keeps every line within the bounds and the product ids unique |
| CartModel.AddedQuantity | backend/models/Cart.js:82-96 | adding raises the quantity of the added product by exactly the amount and no other product's quantity |
| CartModel.QuantityOfUpdate | backend/models/Cart.js:111-126 | replacing a line by one for the same product changes only that product's quantity |
| CartModel.AddedKeepsPrices | backend/models/Cart.js:87-89 | a product already in the cart keeps its line and its captured price after any add |
| CartModel.RemovedDistributes | backend/models/Cart.js:102-105 | removal works line by line: filtering a concatenation is the concatenation of the filtered parts |
| CartModel.RemovedMembers | backend/models/Cart.js:102-105 | a line survives removal exactly when it was in the cart and is for another product |
| CartModel.RemovedAbsent | backend/models/Cart.js:102-105 | removing an absent product changes nothing |
| CartModel.RemovedKeepsInvariants | backend/models/Cart.js:3-22 | removal keeps every line within bounds and the product ids unique |
| CartModel.RemovedSubsequence | backend/models/Cart.js:102-105 | the remaining lines are lines of the old cart, still unique and within bounds |
| CartModel.SetQuantityKeepsInvariants | backend/models/Cart.js:118-121 | setting a line's quantity to at least 1 keeps the invariants |
| CartModel.UpdateToZeroIsRemove | backend/models/Cart.js:116-117 | updating to a quantity of zero or less is the same as removing the product |
| CartModel.UpdatePositiveSetsQuantity | backend/models/Cart.js:118-121 | a positive update sets that line's quantity exactly, keeps its price and leaves every other line alone |
| CartModel.ValidDocDeterminedByContent | backend/models/Cart.js:64-67 | subtotal and total are determined by the lines and the percentage: two schema-valid documents with the same content are equal |
| CartRoutes.CartIdentity | backend/routes/cart.js:10-12 | the user's cart when a user id is present, otherwise the session's cart |
| CartRoutes.CoerceQuantity | backend/routes/cart.js:50-51 | the quantity added is the requested one when that is finite and positive, and exactly 1 otherwise |
| CartRoutes.CoercePrice | backend/routes/cart.js:52-53 | the price captured is the product's price when that is finite and not negative, and exactly 0 otherwise |
| CartRoutes.OrderLinesOf | backend/routes/cart.js:142-147 | one order line per cart line, with product, quantity and price copied and line total = price times quantity |
| CartRoutes.CartStore.FindOrCreate | backend/routes/cart.js:9-20 | the cart returned holds the stored document for the identity, or a fresh empty one that is then stored |
| CartRoutes.CartStore.Save | backend/models/Cart.js:64-67 | saving writes the document (totals recomputed) under the identity and nothing else |
| CartRoutes.CartStore.GetCart | backend/routes/cart.js:23-33 | the reply is the view of the stored (or newly created) cart, and only that identity's entry can appear |
| CartRoutes.CartStore.AddItem | backend/routes/cart.js:36-62 | 400 for a missing product id and 404 for an unknown product, both with the store untouched; otherwise the identity's lines become `Added` with the coerced quantity and price, discount kept |
| CartRoutes.CartStore.MergeIntoStored | backend/routes/cart.js:181-187 | the user's stored lines become the guest lines added in order, discount kept |
| CartRoutes.CartStore.MoveInto | backend/routes/cart.js:183-189 | a non-empty guest cart is added into the user's stored cart, which is saved, and the guest cart is deleted; nothing else in the store changes |
| CartRoutes.CartStore.Delete | backend/routes/cart.js:188 | the guest cart is removed and nothing else |
| CartRoutes.CartStore.AddToStored | backend/routes/cart.js:49-55 | load, add, save: the stored lines become `Added` of the old ones |
| CartRoutes.CartStore.UpdateItem | backend/routes/cart.js:65-82 | a non-finite or negative quantity is 400 with the store unchanged; otherwise the lines become `QuantityUpdated`, and a zero quantity is removal |
| CartRoutes.CartStore.RemoveItem | backend/routes/cart.js:85-97 | the stored lines lose the product, the discount is kept, the reply is the new view |
| CartRoutes.CartStore.ApplyDiscount | backend/routes/cart.js:100-114 | a known code sets code and percentage with the lines kept; any other code is 400 and the stored cart is as before (or freshly created) |
| CartRoutes.CartStore.Clear | backend/routes/cart.js:117-129 | the identity's cart becomes the empty document and the reply is the empty view |
| CartRoutes.CartStore.Checkout | backend/routes/cart.js:132-174 | empty cart: 400 and no order; an address the order schema rejects: 500 and no change; otherwise one new order with the cart's lines, its total as `totalAmount`, status Pending, and the cart emptied |
| CartRoutes.CartStore.Merge | backend/routes/cart.js:177-196 | a non-empty guest cart is added line by line into the user's cart and then deleted; the reply shows the user's original lines with their products and the appended guest lines bare (name 'Product', the default image, stock 0); otherwise only the user's cart is created, and the reply is its ordinary view |
| CartRoutes.AddLines | backend/routes/cart.js:183-185 | the loop adds every guest line in turn: the cart's lines become `MergeItems` of the old ones and the guest lines |
| CartRoutes.CheckoutLinesTotal | backend/routes/cart.js:142-147 | the order lines' totals sum to the cart's subtotal |
| CartRoutes.CheckoutAmount | backend/routes/cart.js:149-155 | the order's amount is the order lines' sum less the discount percentage, and lies between 0 and that sum |
| CartRoutes.CheckoutLinesInSchema | backend/models/Order.js:3-26 | every order line built at checkout meets the order-line schema bounds |
| CartRoutes.MergeQuantities | backend/routes/cart.js:183-185 | after a merge each product's quantity is the user's plus the guest's |
| CartRoutes.MergeKeepsUserPrices | backend/routes/cart.js:183-185 | a product already in the user's cart keeps its position and the user's captured price |
| CartRoutes.MergeKeepsInvariants | backend/models/Cart.js:3-22 | merging keeps every line within bounds and the product ids unique |
| CartRoutes.MergeKeepsUserLines | backend/routes/cart.js:183-185 | a merge only appends: the user's lines keep their positions, products and prices |
| CartRoutes.MergeReply | backend/models/Cart.js:156-188 | the merge reply has one line per cart line: the first lines as the ordinary view shows them, the later ones with the bare product id and the fallbacks; discount and totals as stored |
| CartRoutes.MergeReplyAllLoaded | backend/models/Cart.js:156-188 | when every line was loaded with its product, the merge reply is the ordinary view |
| ProductQuery.SearchAlternatives | backend/routes/products.js:14-21 | the `$or` lists name, author, description and genre, each with the same case-insensitive pattern |
| ProductQuery.BuildFilter | backend/routes/products.js:6-23 | each exact-match key is present exactly when its field is truthy and not 'All', with that value; author and `$or` exactly when truthy, author as a case-insensitive pattern; no other key |
| ProductQuery.BuildSort | backend/routes/products.js:25-41 | a known key sorts by that field, descending exactly for rating and votes; a missing or unknown key sorts by name ascending |
| ProductQuery.PageOf | backend/routes/products.js:72 | page 1 when absent; otherwise the parsed page raised to at least 1, and NaN (none) when it does not parse |
| ProductQuery.LimitOf | backend/routes/products.js:73-74 | a limit exists exactly when the text parses to a positive integer; it is the parsed value up to 1000 and exactly 1000 above that |
| ProductQuery.SearchShape | backend/routes/products.js:14-22 | a search adds `$or` over exactly the four fields with the search text, case-insensitive |
| ProductQuery.EmptyQueryEmptyFilter | backend/routes/products.js:6-23 | a query with nothing to filter on gives the empty filter |
| ProductQuery.TotalPagesIsCeiling | backend/routes/products.js:81 | totalPages is the ceiling: its pages hold every match, one page fewer would not, and it is 0 only for no matches |
| ProductQuery.PageSliceContents | backend/routes/products.js:76-79 | a page holds at most `limit` items, taken in order from position skip, and is full when enough matches remain |
| ProductQuery.PagesCoverMatches | backend/routes/products.js:76-81 | a page is non-empty exactly when its number is at most totalPages |
| ProductQuery.EveryMatchOnItsPage | backend/routes/products.js:76-81 | every match appears on page i/limit + 1, at offset i mod limit, and that page is within totalPages |
| ProductQuery.Skip | backend/routes/products.js:78 | `(page - 1) * limit`; PageSliceContents and EveryMatchOnItsPage state what it selects |
| ProductQuery.TotalPages | backend/routes/products.js:81 | `Math.ceil(total / limit)`; TotalPagesIsCeiling states its two defining bounds |
| ProductQuery.PageSlice | backend/routes/products.js:78 | `skip(...).limit(limit)` on the match list; PageSliceContents, PagesCoverMatches and EveryMatchOnItsPage state its contents |
| ProductQuery.ListingShape | backend/routes/products.js:66-91 | without a usable limit every match is returned; with one, a page of at most `limit` items with total and a ceiling page count |
| ProductQuery.List | backend/routes/products.js:66-91 | without a usable limit every match; with a limit and a page that does not parse, the NaN-page outcome; otherwise the page of `limit` items starting at (page-1)*limit, with the match count and the ceiling page count |
| CatalogueNormalise.ParseDigits | backend/routes/admin.js:21-35 | numbers pass through; non-strings give none; a string gives the value of its digits exactly when there are 1 to 10 of them and the value is at most 1000000 |
| CatalogueNormalise.ReplaceFirstComma | backend/routes/admin.js:42 | the length is kept; `ReplaceFirstCommaNoComma` and `ReplaceFirstCommaAt` state which character changes |
| CatalogueNormalise.DecimalAt | backend/routes/admin.js:43 | the match at a leading digit is a non-empty prefix of the text; `DecimalAtHasShape` and `DecimalAtIsLongest` make it the longest prefix of the pattern's shape |
| CatalogueNormalise.FirstDecimal | backend/routes/admin.js:43 | a decimal is found exactly when the text contains a digit; `FirstDecimalIsLeftmost` places the match at the first digit |
| CatalogueNormalise.ParseRating | backend/routes/admin.js:36-50 | numbers pass through; values that are neither numbers nor strings give none; a string's rating, when there is one, lies in [0, 5] (`ParseRatingOfString` says which string gives which rating) |
| CatalogueNormalise.ReplaceFirstCommaNoComma | backend/routes/admin.js:42 | a text without a comma is unchanged |
| CatalogueNormalise.ReplaceFirstCommaAt | backend/routes/admin.js:42 | with a comma, exactly the first one becomes a point and nothing else changes |
| CatalogueNormalise.FirstDecimalIsLeftmost | backend/routes/admin.js:43 | the match is the decimal text found at the first digit |
| CatalogueNormalise.DecimalAtHasShape | backend/routes/admin.js:43 | the match has the pattern's shape: digits, then optionally a point and at least one digit |
| CatalogueNormalise.DecimalAtIsLongest | backend/routes/admin.js:43 | no longer prefix of the text has the pattern's shape, so the match is the greedy one |
| CatalogueNormalise.LeadingDigitsOfPrefix | backend/routes/admin.js:43 | cutting the text after its leading digit run leaves that run unchanged |
| CatalogueNormalise.DecimalLiteralOfShape | backend/routes/admin.js:45 | text of the pattern's shape reads with `parseFloat` as the decimal literal it spells |
| CatalogueNormalise.FirstDecimalHasShape | backend/routes/admin.js:43 | the leftmost match, when there is one, has the pattern's shape |
| CatalogueNormalise.ParseRatingOfString | backend/routes/admin.js:36-50 | a string rating: no decimal number in the text (first comma read as a point) gives none; otherwise the rating is the leftmost decimal's value exactly when that lies in [0, 5] |
| CatalogueNormalise.ParsePrice | backend/routes/admin.js:51-59 | numbers pass through; non-strings give none; a string gives the decimal value of its cleaned form |
| CatalogueNormalise.ProductDoc.constructor | backend/routes/admin.js:19 | a product document holds the fields it was loaded with |
| CatalogueNormalise.ProductDoc.Normalise | backend/routes/admin.js:62-81 | the fields become their normalised form, and `changed` is true exactly when something needed changing |
| CatalogueNormalise.CountWhere | backend/routes/admin.js:82-85 | a count of matching elements never exceeds the number of elements |
| CatalogueNormalise.CountChanged | backend/routes/admin.js:82-85 | the number of changed products is at most the number of products |
| CatalogueNormalise.FieldsOf | backend/routes/admin.js:61 | the field snapshot of each product, one for one |
| CatalogueNormalise.NormaliseAll | backend/routes/admin.js:61-87 | every product becomes its normalised form, and `updated` equals the number of products that needed a change (so at most the total) |
| CatalogueNormalise.NormaliseOne | backend/routes/admin.js:62-81 | one loop body: the product becomes its normalised form and `changed` says whether it needed a change |
| CatalogueNormalise.NormaliseEach | backend/routes/admin.js:61-87 | the loop: each product becomes its normalised form and `updated` counts those that needed a change |
| CatalogueNormalise.NormalisedFields | backend/routes/admin.js:62-81 | a number is kept; rating, votes and price are kept or replaced by a number, a rating from text in [0, 5]; name and author are present with no white space at either end; a non-empty text link gets an http(s) scheme, any other link is kept |
| CatalogueNormalise.NeedsChangeIffChanged | backend/routes/admin.js:62-85 | `changed` is set exactly when normalisation alters the product |
| CatalogueNormalise.NormalisedIsFixpoint | backend/routes/admin.js:61-87 | normalising twice equals normalising once, and an already normalised product is not counted |
| CatalogueNormalise.ParsePriceOfString | backend/routes/admin.js:55 | the cleaned price has at most one dot and all the digits of the input in order, and its value is not negative |
| CatalogueNormalise.ParseFloatNonNegative | backend/routes/admin.js:56 | a parsed cleaned decimal is never negative |
| CatalogueNormalise.FracValueBounds | backend/routes/admin.js:56 | the fractional digits contribute a value in [0, 1) |
| CatalogueNormalise.CountWhereIsCardinality | backend/routes/admin.js:82-85 | a running count equals the size of the set of matching positions |
| CatalogueNormalise.CountChangedCountsChanges | backend/routes/admin.js:82-87 | the count is exactly the number of positions whose product normalisation changes |
| Text.KeepDigits | backend/routes/admin.js:27 | only digits remain and the result is no longer than the input; `KeepDigitsCases` and `KeepDigitsSplits` pin down which characters are kept |
| Text.KeepDigitsCases | backend/routes/admin.js:27 | an all-digit text is kept as it is, and a text without digits gives the empty string |
| Text.KeepDigitsSplits | backend/routes/admin.js:27 | filtering works character by character: filtering a concatenation concatenates the filtered parts |
| Text.LeadingDigits | backend/routes/admin.js:43 | the longest all-digit prefix: what follows it is not a digit |
| Text.TrimStart | backend/routes/admin.js:73-74 | no leading white space remains and the result is no longer; `TrimStartRemovesLeadingSpace` says only leading white space goes |
| Text.TrimEnd | backend/routes/admin.js:73-74 | no trailing white space remains and the result is no longer; `TrimEndRemovesTrailingSpace` says only trailing white space goes |
| Text.TrimStartRemovesLeadingSpace | backend/routes/admin.js:73-74 | what `trimStart` leaves is a suffix of the text, and everything before it is white space |
| Text.TrimEndRemovesTrailingSpace | backend/routes/admin.js:73-74 | what `trimEnd` leaves is a prefix of the text, and everything after it is white space |
| Text.TrimIdempotent | backend/routes/admin.js:73-76 | a trimmed name has no whitespace at either end, and trimming it again changes nothing |
| Text.ParseIntOfDigits | backend/routes/products.js:72-73 | `parseInt` of a string of digits is its decimal value |
| Text.ParseInt | backend/routes/products.js:72-73 | leading white space skipped; a digit first gives the value of the leading digits; any other first character than a digit or a sign (or nothing) gives none; a negative result needs a minus first |
| Text.ParseIntSigned | backend/routes/products.js:72-73 | a sign first (after white space) gives the value of the digits after it, negated for a minus, or none when no digit follows |
| Text.ParseFloatNaN | backend/routes/admin.js:45 | `parseFloat` is NaN exactly when the text starts with neither a digit nor a point followed by a digit |
| Text.ParseFloatOfDigits | backend/routes/admin.js:45 | `parseFloat` of a run of digits is its decimal value |
| Text.ParseFloat | backend/routes/admin.js:45 | `parseFloat`: the leading decimal literal; ParseFloatNaN states when it is NaN, ParseFloatOfDigits and DecimalLiteralOfShape its value |
| Text.NumberOfString | frontend/src/components/Products/ProductGrid.jsx:71-76 | `Number` of a blank text is 0 and of a run of digits is its value |
| Text.TrimOfDigits | frontend/src/components/Products/ProductGrid.jsx:71-76 | a run of digits has no white space to trim |
| Text.NumberOf | frontend/src/components/Products/ProductGrid.jsx:71-76 | `Number(x)`: a number is itself, undefined and objects are NaN, a blank string is 0 and a string of digits its value |
| Text.LeadingDigitsOfDigits | backend/routes/products.js:72-73 | an all-digit string is its own leading-digit prefix |
| Text.StripLeadingSlashes | backend/routes/admin.js:79 | no leading slash remains and the result is no longer; `StripLeadingSlashesRemovesOnlySlashes` says only leading slashes go |
| Text.StripLeadingSlashesRemovesOnlySlashes | backend/routes/admin.js:79 | what is left is a suffix of the link and everything before it is a slash |
| Text.FixLinkProtocol | backend/routes/admin.js:78-81 | the result always has an http(s) scheme; a link that had one is returned as it was; any other link becomes 'https://' followed by the link without its leading slashes |
| Text.FixLinkProtocolIdempotent | backend/routes/admin.js:78-81 | fixing twice equals fixing once, and a link without a scheme is changed |
| Text.KeepDigitsAndDots | backend/routes/admin.js:55 | only digits and dots remain; `KeepDigitsAndDotsCases` and `KeepDigitsAndDotsSplits` pin down which characters are kept |
| Text.KeepDigitsAndDotsCases | backend/routes/admin.js:55 | a text of digits and dots is kept as it is, and one with neither gives the empty string |
| Text.KeepDigitsAndDotsSplits | backend/routes/admin.js:55 | filtering a concatenation concatenates the filtered parts |
| Text.DropEarlierDotsShape | backend/routes/admin.js:55 | dropping every dot that has a later dot leaves at most one dot, one exactly when there was one, and the digits unchanged |
| Text.DropEarlierDots | backend/routes/admin.js:55 | `replace(/\.(?=.*\.)/g, '')`; DropEarlierDotsShape, DropEarlierDotsNoDot and DropEarlierDotsKeepsLast state that only the last dot survives |
| Text.DropEarlierDotsNoDot | backend/routes/admin.js:55 | text without a dot is left as it is |
| Text.DropEarlierDotsKeepsLast | backend/routes/admin.js:55 | in text of digits and dots the surviving dot is the last one: every earlier dot is dropped and everything from the last dot on is kept |
| Text.CleanPriceShape | frontend/src/components/Products/ProductGrid.jsx:87 | the cleaned price holds only digits and at most one dot, with the input's digits in order |
| Text.CleanPrice | backend/routes/admin.js:55 | the two replaces of parsePrice (also ProductGrid.jsx:87); CleanPriceShape states its shape and ParsePriceOfString the value parsed from it |
| Text.KeepDigitsAndDotsShape | backend/routes/admin.js:55 | filtering keeps the digits in order and keeps a dot exactly when the input had one |
| OrderModel.Order.constructor | backend/models/Order.js:57-99 | a new order has the status given (Pending by default), payment pending by cash on delivery, and no delivery date or totals |
| OrderModel.Order.CalculateTotals | backend/models/Order.js:110-117 | subtotal is the sum of the line totals; total is computed from the fields the method reads, which the schema never sets (so it is NaN), and nothing else changes |
| OrderModel.Order.CalculateTotalsCorrected | backend/models/Order.js:110-117 | total = subtotal - discount + delivery charge, with absent amounts read as 0 |
| OrderModel.Order.UpdateStatus | backend/models/Order.js:120-128 | the status becomes the new one; deliveredAt is stamped only for the lower-case 'delivered'; nothing else changes |
| OrderModel.Order.UpdateStatusCorrected | backend/models/Order.js:120-128 | as above, but deliveredAt is stamped when the status becomes 'Delivered' |
| OrderModel.DeliveredAtNeverSetByEnum | backend/models/Order.js:72-76 | no status the enumeration allows ever stamps deliveredAt in `updateStatus` as written |
| OrderModel.CorrectedStampsOnDelivered | backend/models/Order.js:72-76 | the corrected update stamps exactly for 'Delivered', an enumeration member |
| OrderModel.TotalAsWrittenIsNaN | backend/models/Order.js:115 | with no discount amount stored, the total as written is NaN whatever the delivery charge |
| OrderModel.LinesTotalNonNegative | backend/models/Order.js:3-26 | lines within the schema's bounds have a non-negative sum |
| OrderModel.CorrectedTotalOfPlainOrder | backend/models/Order.js:110-117 | the corrected total of a plain order is its non-negative subtotal, and discount and delivery shift it by their amounts |
| AuthRoutes.FirstWhere | backend/routes/auth.js:22 | `findOne`: the first user matching the condition, and none exactly when none matches |
| AuthRoutes.RegisterError | backend/routes/auth.js:13-25 | the three messages in the source's order; registration is accepted exactly when all three fields are there, the password has 6 or more characters and no user shares the username or the email |
| AuthRoutes.Login | backend/routes/auth.js:51-85 | a missing field is 400; success means some user answering to the identifier by username or email has a matching password, and the reply carries that user's public fields and token; every other failure is 401 'Invalid credentials' |
| AuthRoutes.ProfileUpdate | backend/routes/auth.js:111-113 | name and email are replaced only by truthy values, addresses by any value given; every other field is kept |
| AuthRoutes.UserStore.Register | backend/routes/auth.js:9-48 | a rejected request is 400 with its message and the store unchanged; otherwise the store grows by exactly the new user and the reply carries the token and the public fields without the password |
| AuthRoutes.UserStore.UpdateProfile | backend/routes/auth.js:102-121 | unknown user: 404 and no change; otherwise only that user is updated, and the updated document is returned |
| AuthRoutes.RegisterAddsOne | backend/routes/auth.js:22-29 | an accepted registration adds one user with the requested username and email and the hashed password, clashing with nobody |
| AuthRoutes.RegisterKeepsUniqueLogins | backend/routes/auth.js:22-29 | if usernames and emails were unique, they stay unique after an accepted registration |
| AuthRoutes.UnknownUserLikeWrongPassword | backend/routes/auth.js:59-66 | an unknown identifier and a wrong password give the same 401 'Invalid credentials' |
| AuthRoutes.LoginReachesFirstAnswering | backend/routes/auth.js:58-79 | the first user answering to the identifier, with a matching password, logs in and gets a token for their own id |
| AuthRoutes.RegisteredUserLockedOut | backend/routes/auth.js:22 | a registration whose username equals an older user's email is accepted, and its owner's login is then refused |
| AuthRoutes.RegisterErrorCorrected | backend/routes/auth.js:13-25 | the same messages, and a registration goes through only when neither the username nor the email is already any user's username or email |
| AuthRoutes.RegisterThenLoginCorrected | backend/routes/auth.js:22-79 | after a registration the corrected check accepts, logging in with its username or email and its password succeeds as that user |
| ProductGrid.KeyChar | frontend/src/components/Products/ProductGrid.jsx:6-7 | [a-z0-9] characters are kept as they are; ASCII capitals become their lower-case letter; U+0130 becomes 'i' and U+212A becomes 'k' (as `toLowerCase` then the filter leave them); every other character is dropped |
| ProductGrid.KeepKeyChars | frontend/src/components/Products/ProductGrid.jsx:6-7 | only [a-z0-9] characters remain and the result is no longer; `KeyCharsUnchanged`, `NoKeyCharsVanish` and `KeepKeyCharsSplits` pin down which characters are kept |
| ProductGrid.NormalizeKey | frontend/src/components/Products/ProductGrid.jsx:4-7 | only [a-z0-9] characters remain; a missing key gives ''; a key already made of [a-z0-9] is returned as it is |
| ProductGrid.FirstUsable | frontend/src/components/Products/ProductGrid.jsx:15-19 | the value of the first candidate whose normalised key has a usable value (not undefined, null or ''), or undefined when there is none |
| ProductGrid.Pick | frontend/src/components/Products/ProductGrid.jsx:9-20 | the two loops compute `pick` as specified: undefined for a non-object, otherwise the first usable candidate in the table of normalised keys |
| ProductGrid.FillTable | frontend/src/components/Products/ProductGrid.jsx:11-14 | the first loop leaves the map of normalised keys, a later key overwriting an earlier one that normalises alike |
| ProductGrid.TryCandidates | frontend/src/components/Products/ProductGrid.jsx:15-19 | the second loop returns the first candidate's usable value, or undefined when none has one |
| ProductGrid.BookEmoji | frontend/src/components/Products/ProductGrid.jsx:22-33 | each of the six book types gets its own table entry, and every other key gets the default emoji |
| ProductGrid.EmojiOf | frontend/src/components/Products/ProductGrid.jsx:23-32 | each of the six book types' table entries, and the default emoji for any other key |
| ProductGrid.PriceRange | frontend/src/components/Products/ProductGrid.jsx:36-44 | the six book types' ranges as the table gives them, 200..600 for any other key, and every range within 150..1500 |
| ProductGrid.LanguageDisplayName | frontend/src/components/Products/ProductGrid.jsx:51-58 | en, hi and mixed get their names; any other code is returned as it is |
| ProductGrid.GenerateBookPrice | frontend/src/components/Products/ProductGrid.jsx:35-49 | each of the six book types draws from its own range, any other key from 200..600; the price always lies in 150..1500 |
| ProductGrid.DrawInRange | frontend/src/components/Products/ProductGrid.jsx:47 | `floor(random * (max - min + 1)) + min` lies in [min, max] |
| ProductGrid.SanitiseNumbers | frontend/src/components/Products/ProductGrid.jsx:70-94 | rating: the raw value when in [0, 5], otherwise 0; votes: the raw value when not negative, otherwise 0; '$' exactly when the raw price is a string containing '$', otherwise the rupee sign; price: the parsed one when that is usable and not negative, otherwise a generated one |
| ProductGrid.Prev | frontend/src/components/Products/ProductGrid.jsx:203 | never below 1; one page back unless already on page 1 |
| ProductGrid.Next | frontend/src/components/Products/ProductGrid.jsx:204 | never beyond totalPages; one page on unless already on the last |
| ProductGrid.OrDefault | frontend/src/components/Products/ProductGrid.jsx:150-153 | the reply's value when it is there and not 0, otherwise the default |
| ProductGrid.GridState.constructor | frontend/src/components/Products/ProductGrid.jsx:120-132 | the initial filters ('All' selections, empty search, sort by name), page 1, 24 per page, no results |
| ProductGrid.GridState.HandleFilterChange | frontend/src/components/Products/ProductGrid.jsx:183-193 | page resets to 1; 'search' only updates the search text, any other filter updates that one key |
| ProductGrid.GridState.HandleSearch | frontend/src/components/Products/ProductGrid.jsx:195-201 | page resets to 1 and the search text becomes the search filter |
| ProductGrid.GridState.HandleLimitChange | frontend/src/components/Products/ProductGrid.jsx:303 | page resets to 1 and the page size is set |
| ProductGrid.GridState.HandlePrev | frontend/src/components/Products/ProductGrid.jsx:203 | the page becomes `Prev` of the old one, nothing else changes |
| ProductGrid.GridState.HandleNext | frontend/src/components/Products/ProductGrid.jsx:204 | the page becomes `Next` of the old one, nothing else changes |
| ProductGrid.GridState.ApplyMeta | frontend/src/components/Products/ProductGrid.jsx:145-161 | page, limit, total and page count come from the reply, falling back to 1, 24, 0 and 1 |
| ProductGrid.ProductHref | frontend/src/components/Products/ProductGrid.jsx:321-329 | a link with an http(s) scheme is kept; any other non-empty link becomes 'https://' plus the link without its leading slashes; without a link, an id gives the product-image endpoint URL for that id; there is no link exactly when there is neither; every link produced has a scheme |
| ProductGrid.KeyCharsUnchanged | frontend/src/components/Products/ProductGrid.jsx:4-7 | a key already made of [a-z0-9] is left as it is |
| ProductGrid.NoKeyCharsVanish | frontend/src/components/Products/ProductGrid.jsx:6-7 | a text with no character that survives the filter normalises to the empty string |
| ProductGrid.KeepKeyCharsSplits | frontend/src/components/Products/ProductGrid.jsx:6-7 | filtering a concatenation concatenates the filtered parts |
| ProductGrid.NormalizeKeyIdempotent | frontend/src/components/Products/ProductGrid.jsx:4-7 | normalising a normalised key changes nothing |
| ProductGrid.NormalizeKeyIgnoresCase | frontend/src/components/Products/ProductGrid.jsx:4-7 | keys that differ only in ASCII case normalise alike |
| ProductGrid.TableOfKeys | frontend/src/components/Products/ProductGrid.jsx:11-14 | the table has a key exactly when some property normalises to it |
| ProductGrid.TableOfLaterWins | frontend/src/components/Products/ProductGrid.jsx:12-14 | when two properties normalise alike, the table holds the later one's value |
| ProductGrid.PickKeepsZero | frontend/src/components/Products/ProductGrid.jsx:17 | a falsy but usable value such as 0 is still picked |
| ProductGrid.PriceNumberOfString | frontend/src/components/Products/ProductGrid.jsx:85-88 | a price parsed from a string is never negative |
| ProductGrid.PagerStaysInRange | frontend/src/components/Products/ProductGrid.jsx:203-204 | previous and next stay within [1, totalPages] and undo each other away from the ends |
| ProductGrid.HrefOfNormalisedLink | frontend/src/components/Products/ProductGrid.jsx:321-329 | the grid's href of a link the clean-up already fixed is the link itself, and the same as the href of the original link |
| CartView.FromServer | frontend/src/components/Cart/Cart.jsx:35-39 | the client cart holds the server's lines one for one and its discount |
| CartView.FromServerLines | frontend/src/components/Cart/Cart.jsx:35-39 | each server line becomes one client line |
| CartView.ClientUpdateQuantity | frontend/src/components/Cart/Cart.jsx:49-56 | a quantity below 1 changes nothing; otherwise exactly the lines for the product get the quantity |
| CartView.ClientRemoveItem | frontend/src/components/Cart/Cart.jsx:66-72 | the optimistic removal keeps the discount and exactly the lines for other products, and leaves a cart without the product as it was; `DropProductSplits` and `DropProductSingle` show the filter keeps the other lines in order, each as often as it occurred |
| CartView.DropProductSplits | frontend/src/components/Cart/Cart.jsx:69 | the filter of a concatenation is the concatenation of the filtered parts |
| CartView.DropProductSingle | frontend/src/components/Cart/Cart.jsx:69 | a single line is dropped exactly when it is for the product |
| CartView.DropProductAbsent | frontend/src/components/Cart/Cart.jsx:69 | lines none of which is for the product are all kept |
| CartView.SetQuantities | frontend/src/components/Cart/Cart.jsx:53-55 | the lines for the product get the quantity, all others are kept, in order |
| CartView.ClientClearCart | frontend/src/components/Cart/Cart.jsx:89-97 | after the server clears, no lines and discount 0; if the call fails, the cart is unchanged |
| CartView.ClearMatchesServer | frontend/src/components/Cart/Cart.jsx:89-97 | after a successful clear the page holds exactly what showing the server's emptied cart gives |
| CartView.HandleCheckout | frontend/src/components/Cart/Cart.jsx:99-109 | the login page when signed out, the empty-cart alert for a signed-in empty cart, and checkout exactly when signed in with items |
| CartView.CheckoutGateMatchesServer | frontend/src/components/Cart/Cart.jsx:99-109 | for a cart shown from the server, a signed-in user reaches checkout exactly when the server's checkout would not refuse the cart as empty |
| CartView.ClientSubtotalOfNumbers | frontend/src/components/Cart/Cart.jsx:111-115 | on numeric lines the client subtotal is the server's subtotal |
| CartView.ClientSubtotal | frontend/src/components/Cart/Cart.jsx:111-115 | the reduce over price·quantity; ClientSubtotalOfNumbers, ClientSubtotalNonNegative and ClientTotalsAgree state its value |
| CartView.ClientTotal | frontend/src/components/Cart/Cart.jsx:117-118 | the subtotal less the discount; ClientTotalIsDiscounted, ClientTotalWithinSubtotal and ClientTotalsAgree state its value |
| CartView.ItemCount | frontend/src/components/Cart/Cart.jsx:119-122 | the reduce over quantities; ItemCountOfNumbers, ItemCountNonNegative and ItemCountAgrees state its value |
| CartView.ClientSubtotalNonNegative | frontend/src/components/Cart/Cart.jsx:111-115 | lines with non-negative prices and quantities give a non-negative subtotal |
| CartView.ClientTotalWithinSubtotal | frontend/src/components/Cart/Cart.jsx:117-118 | with non-negative lines and a discount in 0..100 the total lies between 0 and the subtotal, and equals it without a discount |
| CartView.ClientTotalIsDiscounted | frontend/src/components/Cart/Cart.jsx:117-118 | the page's total is the subtotal less the discount in the same way as the server computes it |
| CartView.ClientSubtotalOfView | frontend/src/components/Cart/Cart.jsx:111-115 | the page's subtotal of a cart shown from the server's lines is the server's subtotal of those lines |
| CartView.ItemCountNonNegative | frontend/src/components/Cart/Cart.jsx:119-122 | non-negative quantities give a non-negative item count |
| CartView.ClientTotalsAgree | frontend/src/components/Cart/Cart.jsx:111-118 | for a cart shown from a schema-valid document, the client's subtotal and total equal the server's |
| CartView.ItemCountOfNumbers | frontend/src/components/Cart/Cart.jsx:119-122 | on numeric lines the item count is the sum of the quantities |
| CartView.TotalQuantityAtLeastLines | backend/models/Cart.js:9-14 | with every quantity at least 1 the quantities sum to at least the number of lines |
| CartView.ItemCountAgrees | frontend/src/components/Cart/Cart.jsx:119-122 | the item count is the total quantity, at least the number of lines, and positive exactly when the cart has lines |
| CartView.ClientUpdateMatchesServer | frontend/src/components/Cart/Cart.jsx:49-58 | the optimistic quantity update shows the same lines as the server's view after its update |
| CartView.UpdateIsPointwise | backend/models/Cart.js:111-126 | with unique products a positive update changes exactly the product's line |
| CartView.LineUpdateAgrees | frontend/src/components/Cart/Cart.jsx:53-55 | per line, updating the client line equals showing the updated server line |
| CartView.ClientRemoveMatchesServer | frontend/src/components/Cart/Cart.jsx:66-72 | the optimistic removal shows the same lines as the server's view after its removal |
| CartView.DropMatchesRemoved | frontend/src/components/Cart/Cart.jsx:67-70 | dropping a product's client lines equals showing the server lines without it |
| CartView.ClearedCartShowsNothing | frontend/src/components/Cart/Cart.jsx:89-97 | after a successful clear the page shows a total of 0 and an item count of 0 |
| CartView.DropProductMembers | frontend/src/components/Cart/Cart.jsx:69 | a line survives exactly when it was there and is for another product |

## Left out

- Persistence, routing and concurrency: Mongoose queries, `populate`, `save` and `deleteOne` become the in-memory maps and sequences above, and Express plumbing becomes return values. Two requests racing on one cart are not modelled. Neither is checkout's two separate saves (order, then cart) failing in between.
- The catch-all 500 replies of every handler (a failed database call) are not modelled, except checkout's 500 for an order the schema rejects.
- Password hashing, password comparison, token generation and the authentication middleware are function parameters. The hashing in the user model's save hook is represented by the `hash` parameter; `backend/models/User.js` is not part of this model.
- `GET /me` and `POST /logout` are not modelled (a lookup and a constant reply). `PUT /me` replies with the whole user document, the stored credential included, as the source does. It does not check that a new email is free; whether a unique index on the user collection rejects one depends on `backend/models/User.js`.
- The product image scraping in `backend/routes/products.js` (an outbound fetch and a regular-expression scan of the page) is network I/O.
- Randomness and clocks are parameters: `Math.random` is the `random` argument of `GenerateBookPrice` and `SanitiseNumbers`, and `Date.now` is the `now` argument of `UpdateStatus`. Not modelled: the random fallback product ids in the grid and the cart's JSON, the order number, and the client session id.
- Floating point: all arithmetic is exact (real numbers), so rounding and `toFixed` formatting are not modelled. JavaScript's `Number` of a string is modelled for plain decimal text only. Signs, exponents, hexadecimal and `Infinity` spellings are treated as not numeric.
- ProductQuery.PageOf: a page that does not parse yields `PageNotANumber` rather than a skip of NaN; what the database does with a NaN skip is not modelled.
- Object-prototype keys (for example 'constructor') hit inherited properties in the source's discount, emoji, price-range and language lookups. The model uses exact finite tables.
- Regular-expression matching: the filter's patterns are modelled by shape (field and case-insensitivity), not by what they match.
- ProductQuery.BuildFilter, ProductQuery.List: an author or search text that is not a valid JavaScript regular expression (for example 'C++' or '(') makes `new RegExp` throw, and the listing then answers 500. The model builds a pattern for any text and always returns a listing; pattern syntax is not modelled.
- Client line fields other than product id, price and quantity are shown as the server sends them, and the grid's other defaults in `normalizeProduct` (id, name, author, genre, language, description, stock, isbn, bookType, image, category and amazonLink) are not modelled: `SanitiseNumbers` and `ProductHref` take the book type and the link as already derived.
- String lengths are counted in characters, where JavaScript counts UTF-16 code units. The two differ only for characters outside the Basic Multilingual Plane, and only in the password-length check.
- Letter case: key normalisation models the capitals whose lower-case form survives the [a-z0-9] filter (ASCII A-Z, U+0130 and U+212A); every other character is dropped, as it is in the source. The http(s) scheme test compares ASCII letters without case only; JavaScript's full Unicode case mapping is not modelled there.
- CatalogueNormalise.ProductDoc.Normalise: the product schema trims `amazonLink` when it is set, so a fixed link is stored without surrounding white space. The model stores the fixed link as the clean-up computes it, untrimmed.
- CatalogueNormalise.ProductDoc.Normalise, CatalogueNormalise.NormaliseAll: the parsers are applied to rating, votes and price as the database stores them, before the product schema's Number cast on load. In the source, `Product.find` returns documents already cast: numeric text such as '4.2' arrives as the number 4.2 and is not counted as changed, and text that does not cast arrives as undefined. Save-time validation is not modelled either: the schema's `required` on name and author rejects the '' the clean-up writes for a missing or blank name, and the rating and minimum bounds are not checked. Such a save answers 500 after the earlier products were already saved. The model saves every product and counts stored text as changed.
- Fractional quantities (for example `Number('2.5')`) are outside the integer quantities of the model.
- CartRoutes.CartIdentity, CartRoutes.CartStore.FindOrCreate: a cart created for a signed-in request also records that request's session id, and every guest lookup (the optional-auth handlers through `findOrCreateCart`, and the merge's guest cart) matches on the session id alone, so a guest lookup can land on a user's cart. The model keys guest and user carts apart and does not model that collision.
- CartRoutes.CartStore.Merge: the product id shown for an appended guest line is the line's product id. The source takes the bare ObjectId's own `id` property there, whose text depends on the BSON library version; that text is not modelled.
- CartModel.FindLine, CartModel.Removed: the model compares a line's product id with the requested one. In the source, `item.product.toString()` of a line loaded with its product is the text of the whole product document, so on a cart read through `findOrCreateCart` (every cart route) the comparisons in `addItem`, `removeItem` and `updateQuantity` never match a loaded line: an add appends a second line for a product already in the cart, a removal or update leaves the line as it was, and the merge appends guest lines rather than adding to the user's existing ones. Mongoose's document `toString` is not part of this model.
- CartRoutes.CartStore.AddItem, CartRoutes.CartStore.UpdateItem, CartRoutes.CartStore.RemoveItem, CartRoutes.CartStore.Checkout: a cart line whose product has been deleted from the catalogue is loaded with a null product, so `item.product.toString()` throws in add, update and remove, and checkout builds an order line without a product that the order schema rejects; each of these answers 500 in the source. The model compares product ids and treats such lines like any other.
- A cart line whose product was deleted is shown by the server with defaults; the client-side agreement lemmas assume every line's product is in the catalogue.
- Subdocument ids of cart lines and Mongoose's casting of request values beyond the coercions above are not modelled.
- On a failed optimistic update or removal the cart page reloads the server's cart; that reload is not modelled.

## Findings

| source | as written | input that shows it | evidently intended | confidence | as-written member | corrected member |
|---|---|---|---|---|---|---|
| backend/models/Order.js:120-128 | deliveredAt is stamped only when the new status equals 'delivered' in lower case, which the status enumeration does not contain | `updateStatus('Delivered')` leaves deliveredAt unset | stamp deliveredAt when the order becomes 'Delivered' | high, not executed | OrderModel.DeliveredAtNeverSetByEnum | OrderModel.CorrectedStampsOnDelivered |
| backend/models/Order.js:110-117 | the total reads `discountAmount` and `deliveryCharge`, which the order schema does not define, so it is NaN | any order: `calculateTotals()` with no discount amount stored | total = subtotal - discount + delivery charge, absent amounts counting as 0 | high, not executed | OrderModel.TotalAsWrittenIsNaN | OrderModel.CorrectedTotalOfPlainOrder |
| backend/routes/auth.js:22 | registration rejects a username equal to an existing username and an email equal to an existing email, but login (line 58) matches the identifier against both columns | an existing user with email 'alice@example.com', then a registration with username 'alice@example.com': accepted, and that user's own login is refused with 401 | no login identifier may answer to two users: compare both new values against both columns | medium, not executed | AuthRoutes.RegisteredUserLockedOut | AuthRoutes.RegisterThenLoginCorrected |
