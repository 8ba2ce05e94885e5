# Storefront and admin client rules, in Dafny

This project models the in-memory logic of a React storefront and its admin panel, which sit
on top of a REST backend. The modelled parts are:

- **Shopping cart store.** An ordered list of lines keyed by variant id, with four operations
  and two totals. It is a class holding a `seq` that each operation replaces.
- **Checkout page.**
  - The twelve-field completeness check and the coupon input and applied coupon.
  - The total to charge.
  - The submit handler: it resolves a server cart by e-mail, or creates one and pushes every
    line to it. It then orders from that cart, falling back to a direct order.
  - Every backend reply is an input. The handler returns the calls it made, in order, and the
    outcome.
- **Shop catalogue view.** The category filter, and the sort of a copy by price or name. The
  sort is an insertion sort, proved to be a permutation and stable: products that the
  comparator ties keep their catalogue order, as in JavaScript's stable `sort`. Under a
  comparator that is a total preorder it is also ordered, so it gives the engine's result.
- **Sign-in and sign-up.**
  - The admin sign-in page's login/register branch and its split of the name field into first
    and last name.
  - The customer sign-up page's password checks, in their order, and the register payload.
- **Admin pages.**
  - The dashboard figures.
  - The search filters of the variants, categories, images, products and sellers lists.
  - The lookups from an id to a product or category name, with their fallbacks.
  - The variant label and low-stock flag, and the "Active"/"Inactive" status rule.
  - The edit-form defaults and the create/update payloads, with their optional fields.

Conventions:
- Amounts are integers (cents for the cart and checkout).
- JSON fields that may be absent are `Option`s.
- JavaScript truthiness of a string is "present and not empty".
- `isActive !== false` is `isActive != Some(false)`.
- `trim`, `toLowerCase` and `toUpperCase` act on ASCII characters. `localeCompare` is a
  comparator parameter.
- `parseInt` is modelled with its leading white space, its sign, its `0x` prefix and its
  longest digit prefix; `None` stands for `NaN`.

Where the code and the design description of the system disagree, the model follows the code:
- The checkout never fetches the order after creating it.
- The checkout never asks the backend to recalculate the cart total.
- A rejected cart creation aborts the whole submission with "Order Failed".
- The success message reads the `totalPrice` of the order reply. An answer without one
  therefore also ends in "Order Failed", and the cart is kept.
- A confirmed variant delete makes no mutating call. It only reloads the two lists.

Modules: `Wrappers` (Option), `Seqs` (`filter`, `find`), `Text` (string operations), `Cart`,
`Checkout`, `Shop`, `Auth`, `Signup`, `AdminCommon`, `Dashboard`, `AdminVariants`,
`AdminCategories`, `AdminImages`, `AdminProducts`, `AdminSellers`.

## Model

| member | source | states |
|---|---|---|
| Seqs.Filter | src/contexts/CartContext.tsx:52 | `filter` keeps an element iff it passes, keeps the original order (a subsequence), and is no longer than its input |
| Seqs.FilterAll | src/pages/Shop.tsx:16-17 | a filter that every element passes returns the whole list |
| Seqs.FilterAppend | src/pages/admin/AdminDashboard.tsx:35 | filtering distributes over concatenation |
| Seqs.FilterNonEmpty | src/pages/Checkout.tsx:97-99 | a filter result is non-empty iff some element passes |
| Seqs.Find | src/contexts/CartContext.tsx:33 | `find` is `undefined` iff no element passes; otherwise it is the element at the first index that passes |
| Text.Trim | src/pages/Checkout.tsx:97 | `trim` leaves no white space at either end and is empty iff the input is all white space |
| Text.ToLower | src/pages/admin/AdminSellers.tsx:46-47 | definition, no contract of its own: `toLowerCase` on ASCII letters; its properties are Text.ToLowerIdempotent and Text.ToLowerOfUpper |
| Text.ToUpper | src/pages/Checkout.tsx:55 | definition, no contract of its own: `toUpperCase` on ASCII letters; its properties are Text.ToUpperIdempotent and Text.TrimToUpper |
| Text.Includes | src/pages/admin/AdminSellers.tsx:46-47 | definition, no contract of its own: `includes`; characterised by Text.IncludesIffOccurs |
| Text.Join | src/pages/auth/Auth.tsx:65 | definition, no contract of its own: `join(" ")`; Text.JoinSplit shows it undoes `split(" ")` |
| Text.TrimIdempotent | src/pages/Checkout.tsx:55 | trimming twice is trimming once |
| Text.TrimToUpper | src/pages/Checkout.tsx:55 | trimming and upper-casing commute |
| Text.ToUpperIdempotent | src/pages/Checkout.tsx:419 | upper-casing twice is upper-casing once |
| Text.ToLowerIdempotent | src/pages/admin/AdminSellers.tsx:46-47 | lower-casing twice is lower-casing once |
| Text.ToLowerOfUpper | src/pages/admin/AdminSellers.tsx:46-47 | lower-casing undoes an upper-casing |
| Text.IncludesIffOccurs | src/pages/admin/AdminSellers.tsx:46-47 | `includes` holds iff the pattern occurs at some position |
| Text.IncludesEmpty | src/pages/admin/AdminSellers.tsx:46-47 | every string includes the empty string |
| Text.IndexOf | src/pages/Shop.tsx:18 | the first position of a character, or -1 iff it is absent, with no earlier occurrence |
| Text.ReplaceFirst | src/pages/Shop.tsx:18 | `replace` with a one-character pattern changes only the first occurrence and keeps the length |
| Text.Split | src/pages/auth/Auth.tsx:60 | `split(" ")` yields at least one piece |
| Text.JoinSplit | src/pages/auth/Auth.tsx:60-65 | `join(" ")` after `split(" ")` gives the string back |
| Text.SplitPieces | src/pages/auth/Auth.tsx:60 | no piece contains a space; the split is the string itself iff it has no space, and otherwise has two pieces or more |
| Text.SplitFirstWord | src/pages/auth/Auth.tsx:60-65 | a string with a space and no space at its ends splits into a non-empty first word and a non-empty rest that give it back with one space |
| Text.OrUndefined | src/pages/auth/Auth.tsx:66 | `s \|\| undefined` is absent iff `s` is empty, and `s` otherwise |
| Text.IntToString | src/pages/admin/AdminVariants.tsx:89 | the `toString` of an integer is never empty; Text.ParseIntToString proves `parseInt` reads it back |
| Text.ParseInt | src/pages/admin/AdminCategories.tsx:122 | definition, no contract of its own: `parseInt` with leading white space, a sign, a `0x` prefix and the longest digit prefix, `None` for `NaN`; Text.ParseNatural, Text.ParseNegative and Text.ParseIntToString are its round trips |
| Text.NatToString | src/pages/admin/AdminVariants.tsx:86 | the decimal rendering is a non-empty string of digits |
| Text.NatToStringValue | src/pages/admin/AdminVariants.tsx:86 | the digits of the rendering have the value rendered |
| Text.ParseNatural | src/pages/admin/AdminCategories.tsx:76 | `parseInt` reads a natural number's decimal text back as that number |
| Text.ParseNegative | src/pages/admin/AdminCategories.tsx:76 | `parseInt` reads a minus sign followed by a magnitude's decimal text back as the negative number |
| Text.ParseIntToString | src/pages/admin/AdminCategories.tsx:76 | `parseInt` of an integer's `toString` gives the integer back, negative ones included |
| Cart.Added | src/contexts/CartContext.tsx:31-49 | definition, no contract of its own: the `addToCart` updater, merge into the first line with the variant id or append with quantity 1; specified by Cart.AddExisting, Cart.AddAbsent, Cart.AddTotals and Cart.AddKeepsWellFormed |
| Cart.Removed | src/contexts/CartContext.tsx:51-52 | definition, no contract of its own: the `removeFromCart` filter; specified by Cart.RemoveSpec and Cart.RemoveTotals |
| Cart.WithLineQuantity | src/contexts/CartContext.tsx:64-66 | definition, no contract of its own: the `map` that sets the quantity on the lines with the id; specified by Cart.UpdateSetsQuantity |
| Cart.Updated | src/contexts/CartContext.tsx:59-66 | definition, no contract of its own: `updateQuantity`, removal below 1 and the map otherwise; specified by Cart.UpdateBelowOneRemoves, Cart.UpdateSetsQuantity and Cart.UpdateTotals |
| Cart.QuantitySum | src/contexts/CartContext.tsx:73 | definition, no contract of its own: the `totalItems` reduce; its properties are Cart.SumsAppend, Cart.QuantitySumAtLeastLength and Cart.EmptyIffNoUnits |
| Cart.PriceSum | src/contexts/CartContext.tsx:74 | definition, no contract of its own: the `totalPrice` reduce; its properties are Cart.SumsAppend, Cart.SumsUpdateAt and Cart.OfUniqueKey |
| Cart.ExistingIsTheLine | src/contexts/CartContext.tsx:33 | with unique keys, the line `find` returns for a line's key is that line |
| Cart.AddExisting | src/contexts/CartContext.tsx:33-41 | adding a present variant raises that line's quantity by exactly 1; length and every other line are unchanged |
| Cart.AddAbsent | src/contexts/CartContext.tsx:43-47 | adding an absent variant appends it with quantity 1 after the unchanged earlier lines |
| Cart.AddKeepsWellFormed | src/contexts/CartContext.tsx:33-47 | adding keeps the keys unique and every quantity at least 1 |
| Cart.AddTotals | src/contexts/CartContext.tsx:31-47 | adding adds one unit, and adds the unit price of the line that got it: the line's captured price for an existing line |
| Cart.AddTwice | src/contexts/CartContext.tsx:31-47 | adding the same new variant twice gives one line of quantity 2 |
| Cart.SharedKeyMerges | src/contexts/CartContext.tsx:33-41 | two different items with the same variant id share one line, which keeps the first item's data |
| Cart.RemoveSpec | src/contexts/CartContext.tsx:51-52 | removing drops every line with the id, keeps the others in order, and changes nothing for an absent id |
| Cart.RemoveTotals | src/contexts/CartContext.tsx:51-52 | removing subtracts exactly the quantity and the line price of that key |
| Cart.RemoveKeepsWellFormed | src/contexts/CartContext.tsx:51-52 | removing keeps the keys unique and the quantities positive |
| Cart.RemoveKeepsUnique | src/contexts/CartContext.tsx:52 | removing keeps the keys unique |
| Cart.UpdateBelowOneRemoves | src/contexts/CartContext.tsx:59-63 | a quantity below 1 is exactly removal, so the minus button on a quantity-1 line removes it |
| Cart.UpdateSetsQuantity | src/contexts/CartContext.tsx:64-66 | a quantity of 1 or more is set on the matching line only; length, order and other fields are kept |
| Cart.UpdateTotals | src/contexts/CartContext.tsx:64-74 | setting a quantity changes both totals by the difference on that line |
| Cart.UpdateKeepsWellFormed | src/contexts/CartContext.tsx:59-66 | updating keeps the keys unique and the quantities positive |
| Cart.SumsAppend | src/contexts/CartContext.tsx:73-74 | the totals of a list with one more line grow by that line's quantity and price times quantity |
| Cart.SumsUpdateAt | src/contexts/CartContext.tsx:73-74 | replacing a line changes the totals by the difference of the two lines |
| Cart.QuantitySumAtLeastLength | src/contexts/CartContext.tsx:73 | with positive quantities there are at least as many units as lines |
| Cart.EmptyIffNoUnits | src/contexts/CartContext.tsx:73 | a well-formed cart has zero items iff it has no lines |
| Cart.OfUniqueKey | src/contexts/CartContext.tsx:73-74 | with unique keys, a key's quantity and line price are those of its one line |
| Cart.AbsentKeySums | src/contexts/CartContext.tsx:73-74 | a key no line carries adds nothing to the totals |
| Cart.CartStore.constructor | src/contexts/CartContext.tsx:28 | the cart starts empty |
| Cart.CartStore.AddToCart | src/contexts/CartContext.tsx:31-49 | the new list is the merge-or-append of the old one; well-formedness is preserved |
| Cart.CartStore.RemoveFromCart | src/contexts/CartContext.tsx:51-57 | the new list is the old one without the key; well-formedness is preserved |
| Cart.CartStore.UpdateQuantity | src/contexts/CartContext.tsx:59-67 | below 1 it delegates to removal, otherwise it sets the line's quantity; well-formedness is preserved |
| Cart.CartStore.ClearCart | src/contexts/CartContext.tsx:69-71 | the list is empty and both totals are 0 |
| Checkout.WithField | src/pages/Checkout.tsx:39-41 | a change replaces the named field and keeps every other field |
| Checkout.MissingInformation | src/pages/Checkout.tsx:96-99 | definition, no contract of its own: `emptyFields.length > 0`; characterised by Checkout.MissingIffBlankField |
| Checkout.MissingIffBlankField | src/pages/Checkout.tsx:96-99 | submission is refused iff some of the twelve fields is empty after trimming |
| Checkout.MissingIffEmptyFields | src/pages/Checkout.tsx:96-99 | the refusal condition is the code's `emptyFields.length > 0` |
| Checkout.NormalizedCode | src/pages/Checkout.tsx:55 | definition, no contract of its own: `couponCode.trim().toUpperCase()`; see Checkout.NormalizedCodeIdempotent |
| Checkout.FinalTotal | src/pages/Checkout.tsx:90 | definition, no contract of its own: the coupon's final amount when one is applied, the subtotal otherwise; used by Checkout.CheckoutPage.HandleRemoveCoupon and Checkout.ExampleCouponFallback |
| Checkout.ShippingAddress | src/pages/Checkout.tsx:143 | definition, no contract of its own: the template "address, city, zipCode, country"; Checkout.OrderPayloads shows every order call carries it |
| Checkout.Reported | src/pages/Checkout.tsx:176-179 | definition, no contract of its own: the outcome of an order answer: placed with its total when it has one, "Order Failed" otherwise; see Checkout.StepPlacedIffAnswered |
| Checkout.OrderStep | src/pages/Checkout.tsx:139-174 | definition, no contract of its own: the from-cart order with the direct fallback, or the direct order alone; specified by Checkout.OrderStepCalls, Checkout.OrderStepPayloads and Checkout.StepPlacedIffAnswered |
| Checkout.Submission | src/pages/Checkout.tsx:92-191 | definition, no contract of its own: the whole submit run as calls and an outcome; specified by Checkout.BlankFieldMakesNoCall, Checkout.LookupHitPushesNothing, Checkout.LookupMissPushesEveryLine, Checkout.PlacedIffAnswered and Checkout.NoOtherCalls |
| Checkout.NormalizedCodeIdempotent | src/pages/Checkout.tsx:55 | normalising a coupon code (trim, then upper-case) twice changes nothing more |
| Checkout.PlaceOrder | src/pages/Checkout.tsx:92-191 | the step-by-step handler (reassigned `cartId` and `order`, the push loop) makes exactly the calls and reaches exactly the outcome of the `Submission` specification |
| Checkout.BlankFieldMakesNoCall | src/pages/Checkout.tsx:96-106 | a blank field stops the submission before any backend call |
| Checkout.LookupHitPushesNothing | src/pages/Checkout.tsx:111-113 | a found cart is reused: no cart is created and no line is pushed |
| Checkout.LookupMissPushesEveryLine | src/pages/Checkout.tsx:114-135 | a failed lookup creates a cart with the e-mail and subtotal, then makes one add call per line in cart order, whatever they answer, before ordering |
| Checkout.CartCreationFailureAborts | src/pages/Checkout.tsx:116-121 | a rejected cart creation makes no order call and ends in "Order Failed" |
| Checkout.OrderStepCalls | src/pages/Checkout.tsx:139-174 | with a truthy cart id the from-cart order is tried first, and a direct order follows iff it was rejected; a falsy id goes straight to a direct order; the outcome is the last answer |
| Checkout.FallbackAfterRejection | src/pages/Checkout.tsx:151-162 | after a rejected from-cart order the last call is a direct order with the shipping string and the final total; its answer decides, and a second rejection places nothing |
| Checkout.OrderPayloads | src/pages/Checkout.tsx:142-173 | every order call carries "address, city, zipCode, country", the phone, "Credit Card" and "pending"/"pending"; a direct order also carries the e-mail and the final total |
| Checkout.OrderStepPayloads | src/pages/Checkout.tsx:139-162 | each order call carries the form's from-cart payload, or is the direct order with the form's payload and the final total |
| Checkout.SubmissionEndsWithOrderStep | src/pages/Checkout.tsx:108-174 | once a cart is resolved, a submission is one or more cart calls followed by the order step's calls, and its outcome is the order step's |
| Checkout.SplitCalls | src/pages/Checkout.tsx:108-174 | after cart calls and then order-step calls, every call is a cart call or an order call, and each carries the code's payload |
| Checkout.StepPlacedIffAnswered | src/pages/Checkout.tsx:139-179 | an order step places an order iff one of its calls was answered with an order that has a total |
| Checkout.SplitAnswered | src/pages/Checkout.tsx:108-179 | cart calls are never answered with an order, so only the order step's calls decide |
| Checkout.PlacedIffAnswered | src/pages/Checkout.tsx:176-190 | an order is placed (and the cart cleared) iff some order call answered with an order that has a total |
| Checkout.NoOtherCalls | src/pages/Checkout.tsx:108-190 | every call of a submission is the cart lookup, the cart creation, a line push or an order request, so none validates a coupon, recalculates the cart total or fetches the order |
| Checkout.ExampleEndToEnd | src/pages/Checkout.tsx:92-191 | a shirt added twice is one line of quantity 2 (100.00); with cart 3 found, the run is exactly the lookup and one from-cart order, and the order is placed with 100.00 |
| Checkout.ExampleCouponFallback | src/pages/Checkout.tsx:151-162 | with a coupon final amount of 90.00, the direct fallback order carries 90.00, not the 100.00 subtotal |
| Checkout.CheckoutPage.constructor | src/pages/Checkout.tsx:17-37 | an empty form, an empty code, no applied coupon, not validating |
| Checkout.CheckoutPage.HandleChange | src/pages/Checkout.tsx:39-41 | the form becomes the old form with one field replaced |
| Checkout.CheckoutPage.TypeCouponCode | src/pages/Checkout.tsx:419 | the typed code is stored upper-cased |
| Checkout.CheckoutPage.HandleApplyCoupon | src/pages/Checkout.tsx:43-83 | a blank code makes no call and changes nothing; otherwise the trimmed, upper-cased code is sent with the subtotal; only a valid reply sets the applied coupon from the reply and clears the input; validation ends switched off |
| Checkout.CheckoutPage.HandleRemoveCoupon | src/pages/Checkout.tsx:85-88 | no coupon is applied, the input is empty, and the total to charge is the subtotal again |
| Checkout.CheckoutPage.HandleSubmit | src/pages/Checkout.tsx:92-191 | the run is `Submission` on the current form, lines, subtotal and final total, and the cart is emptied iff an order was placed, otherwise unchanged |
| Shop.InitialCategory | src/pages/Shop.tsx:13 | definition, no contract of its own: `categoryParam \|\| "all"`; see Shop.InitialView |
| Shop.InitialView | src/pages/Shop.tsx:12-19 | with no query parameter the page shows the whole catalogue; with a parameter other than "all" it shows exactly the products whose slug is that parameter |
| Shop.CategorySlug | src/pages/Shop.tsx:18 | definition, no contract of its own: `category.toLowerCase().replace(" ", "-")`; characterised by Shop.SlugShape |
| Shop.FilteredProducts | src/pages/Shop.tsx:16-19 | definition, no contract of its own: the category filter; specified by Shop.AllKeepsEverything and Shop.FilterBySlug |
| Shop.AllKeepsEverything | src/pages/Shop.tsx:16-17 | "all" keeps the whole catalogue |
| Shop.FilterBySlug | src/pages/Shop.tsx:16-19 | any other selection keeps exactly the products whose slug equals it, in catalogue order |
| Shop.SlugShape | src/pages/Shop.tsx:18 | the slug lower-cases the category and turns the first space, and only that one, into "-" |
| Shop.Sort | src/pages/Shop.tsx:21 | the sorted copy holds exactly the elements of its input, each as often, and has its length |
| Shop.InsertSorted | src/pages/Shop.tsx:21 | inserting into an ordered list under a total preorder keeps it ordered |
| Shop.SortSorted | src/pages/Shop.tsx:21 | under a total preorder the sorted copy is ordered |
| Shop.SortUnderTies | src/pages/Shop.tsx:25 | a comparator that calls everything equal keeps the order, so the "featured" key leaves the list as it is |
| Shop.InsertKeepsClass | src/pages/Shop.tsx:21 | inserting an element keeps, in order, the elements of a class the comparator ties, adding the element at the front of its class when it belongs to it |
| Shop.SortStable | src/pages/Shop.tsx:21 | the sort is stable: the elements of any class the comparator ties appear in the sorted copy in their original order |
| Shop.Comparator | src/pages/Shop.tsx:21-26 | definition, no contract of its own: `a.price - b.price`, `b.price - a.price`, `localeCompare` or 0 by sort key; see Shop.PriceLowAscending, Shop.PriceHighDescending, Shop.NameOrdered and Shop.OtherKeyKeepsOrder |
| Shop.SortedProducts | src/pages/Shop.tsx:16-26 | definition, no contract of its own: the sorted copy of the filtered list; specified by Shop.SortedIsPermutation and the ordering lemmas |
| Shop.SortedIsPermutation | src/pages/Shop.tsx:16-26 | the sorted list holds exactly the filtered products, each as often |
| Shop.PriceLowAscending | src/pages/Shop.tsx:22 | "price-low" gives non-decreasing prices |
| Shop.PriceHighDescending | src/pages/Shop.tsx:23 | "price-high" gives non-increasing prices |
| Shop.EqualPricesKeepOrder | src/pages/Shop.tsx:21-23 | under either price key, the products of one price stay in their catalogue order |
| Shop.NameOrdered | src/pages/Shop.tsx:24 | "name" orders the products by the string order when that order is a total preorder |
| Shop.EqualNamesKeepOrder | src/pages/Shop.tsx:21-24 | under the name key with a total-preorder collation, products whose names compare equal stay in their catalogue order |
| Shop.OtherKeyKeepsOrder | src/pages/Shop.tsx:14-25 | any other key, "featured" included, keeps the filtered order |
| Auth.NameParts | src/pages/auth/Auth.tsx:60 | definition, no contract of its own: `firstName.trim().split(" ")` |
| Auth.FirstNameSent | src/pages/auth/Auth.tsx:64 | definition, no contract of its own: `nameParts[0] \|\| firstName`; specified by Auth.BlankNameSentRaw, Auth.OneWordName and Auth.SeveralWordsName |
| Auth.LastNameSent | src/pages/auth/Auth.tsx:65 | definition, no contract of its own: `nameParts.slice(1).join(" ") \|\| lastName`; specified by the same three lemmas |
| Auth.RegisterPayloadOf | src/pages/auth/Auth.tsx:61-68 | definition, no contract of its own: the register payload; specified by Auth.RegisterPayloadFields |
| Auth.BlankNameSentRaw | src/pages/auth/Auth.tsx:60-65 | a name field that is blank after trimming is sent as typed, with the separate last-name field |
| Auth.OneWordName | src/pages/auth/Auth.tsx:60-65 | a one-word name is sent trimmed as the first name, with the separate last-name field |
| Auth.SeveralWordsName | src/pages/auth/Auth.tsx:60-65 | a name with a space gives a non-empty first word without spaces and a non-empty rest, which with one space give back the trimmed field |
| Auth.RegisterPayloadFields | src/pages/auth/Auth.tsx:59-68 | e-mail and password are passed through, an empty phone is absent, no seller account is asked for |
| Auth.AuthPage.constructor | src/pages/auth/Auth.tsx:12-18 | login mode, empty fields, not loading |
| Auth.AuthPage.ToggleMode | src/pages/auth/Auth.tsx:187 | the mode flips |
| Auth.AuthPage.HandleAuth | src/pages/auth/Auth.tsx:36-96 | in login mode only the login call is made, otherwise only the register call with the split names; loading ends off |
| Signup.WithField | src/pages/auth/Signup.tsx:106-111 | after a change the named field holds the typed value and every other field holds what it held before |
| Signup.Decide | src/pages/auth/Signup.tsx:47-76 | mismatched passwords are rejected whatever their length; matching ones shorter than 6 are weak; register is sent iff they match and have at least 6 characters |
| Signup.OtherFieldsKeepChecks | src/pages/auth/Signup.tsx:47-66 | typing into a field other than the two passwords changes neither the mismatch rejection nor the weak-password rejection |
| Signup.PayloadFields | src/pages/auth/Signup.tsx:69-76 | names and e-mail as typed, the phone only when not empty, no seller account |
| Signup.SignupPage.constructor | src/pages/auth/Signup.tsx:15-23 | an empty form, not loading |
| Signup.SignupPage.HandleChange | src/pages/auth/Signup.tsx:106-111 | the form becomes the old form with one field replaced |
| Signup.SignupPage.HandleSignup | src/pages/auth/Signup.tsx:43-104 | the decision is `Decide`; a call is made iff register is decided; a rejection leaves loading as it was, and a sent request ends with loading off |
| AdminCommon.SearchHit | src/pages/admin/AdminSellers.tsx:46-47 | definition, no contract of its own: `field?.toLowerCase().includes(search.toLowerCase())`; characterised by AdminCommon.SearchHitIffOccurs |
| AdminCommon.SearchHitIffOccurs | src/pages/admin/AdminSellers.tsx:44-48 | a search hit means the lower-cased search occurs in the lower-cased field; an absent field never hits |
| AdminCommon.EmptySearchHitsPresent | src/pages/admin/AdminSellers.tsx:44-48 | an empty search hits a field iff the field is present |
| AdminCommon.SearchIgnoresCase | src/pages/admin/AdminSellers.tsx:46-47 | the search ignores ASCII case in both the field and the search text |
| AdminCommon.OrEmpty | src/pages/admin/AdminVariants.tsx:87-88 | definition, no contract of its own: `s \|\| ""`; see AdminCommon.OrEmptyOrUndefined |
| AdminCommon.OrEmptyOrUndefined | src/pages/admin/AdminCategories.tsx:75-110 | a text shown in a form with `\|\| ""` and sent back with `\|\| undefined` is the original value, except that an empty one comes back absent |
| AdminCommon.StatusLabel | src/pages/admin/AdminCategories.tsx:312 | "Active" iff the flag is not exactly false, "Inactive" iff it is |
| AdminCommon.NumberText | src/pages/admin/AdminVariants.tsx:84 | `n?.toString() \|\| fallback` is a non-empty text that parses back to `n`, or the fallback for an absent `n` |
| AdminCommon.OptionalId | src/pages/admin/AdminCategories.tsx:122 | `s ? parseInt(s) : undefined` is absent iff `s` is empty, `NaN` iff `parseInt` cannot read it, and otherwise the parsed integer |
| AdminCommon.OptionalIdRoundTrip | src/pages/admin/AdminCategories.tsx:76 | an id put into a form field and parsed back gives the id, and an absent id stays absent |
| AdminCommon.FindProduct | src/pages/admin/AdminVariants.tsx:137 | definition, no contract of its own: `products.find` on the product id; it is `Seqs.Find` |
| AdminCommon.FoundName | src/pages/admin/AdminVariants.tsx:137-138 | definition, no contract of its own: `product?.productName` |
| AdminCommon.ProductName | src/pages/admin/AdminVariants.tsx:136-139 | the name of the first product with that id when it is non-empty, otherwise "Product #" and the id |
| AdminCommon.ProductNameNotEmpty | src/pages/admin/AdminImages.tsx:138-141 | the product name shown is never empty |
| AdminCommon.ProductNameFallback | src/pages/admin/AdminImages.tsx:138-141 | without a product of that id the name is "Product #" and the id |
| AdminCommon.ProductsAfter | src/pages/admin/AdminImages.tsx:52-54 | a page with content gives that content, a page without content gives no products, and a `null` page throws and keeps the current list |
| Dashboard.OrderList | src/pages/admin/AdminDashboard.tsx:23-27 | definition, no contract of its own: `Array.isArray(ordersRes) ? ordersRes : []` with a rejection caught as `[]`; see Dashboard.NoOrdersWhenFailed |
| Dashboard.OrderAmount | src/pages/admin/AdminDashboard.tsx:28 | definition, no contract of its own: `Number(order.totalPrice \|\| 0)` |
| Dashboard.Revenue | src/pages/admin/AdminDashboard.tsx:28 | definition, no contract of its own: the revenue reduce over orders none of which is `null`; specified by Dashboard.RevenueAppend and Dashboard.RevenueBounds |
| Dashboard.RevenueAppend | src/pages/admin/AdminDashboard.tsx:28 | revenue adds up over a split of the orders, and a split of null-free lists is null-free |
| Dashboard.RevenueBounds | src/pages/admin/AdminDashboard.tsx:28 | with non-negative totals, revenue is non-negative and at least any one order's total; missing totals count as 0 |
| Dashboard.ProductCount | src/pages/admin/AdminDashboard.tsx:24-29 | definition, no contract of its own: `totalElements \|\| content?.length \|\| 0` on a non-null reply; see Dashboard.ProductCountCases |
| Dashboard.ProductCountCases | src/pages/admin/AdminDashboard.tsx:24-29 | `totalElements` when present and non-zero, otherwise the content length or 0; a rejected request counts as the fallback page and so as 0; never negative for non-negative inputs |
| Dashboard.LowStock | src/pages/admin/AdminDashboard.tsx:35 | definition, no contract of its own: `v.stockQuantity < 10` on a present quantity |
| Dashboard.LowStockVariants | src/pages/admin/AdminDashboard.tsx:35 | definition, no contract of its own: the low-stock filter; specified by Dashboard.LowStockCountBounds and Dashboard.LowStockAppend |
| Dashboard.LowStockCountBounds | src/pages/admin/AdminDashboard.tsx:35 | the low-stock count is at most the number of variants, 0 when none is below 10, and all of them when all are |
| Dashboard.LowStockAppend | src/pages/admin/AdminDashboard.tsx:35 | the low-stock count adds up over a split of the variants |
| Dashboard.NoOrdersWhenFailed | src/pages/admin/AdminDashboard.tsx:23-28 | a failed or non-array reply shows 0 orders and 0 revenue |
| Dashboard.DashboardPage.constructor | src/pages/admin/AdminDashboard.tsx:8-14 | all figures 0, loading |
| Dashboard.DashboardPage.LoadDashboardStats | src/pages/admin/AdminDashboard.tsx:20-51 | a `null` order in the list or a `null` products body throws and leaves every figure as it was; otherwise the orders count and revenue come from the orders list, the product count from the page and the low-stock count from the variants, 0 when they fail; loading ends off in both cases |
| AdminVariants.VariantMatches | src/pages/admin/AdminVariants.tsx:126-134 | definition, no contract of its own: the search test on the product name, color, size and sku; see AdminVariants.FilteredVariants |
| AdminVariants.FilteredVariants | src/pages/admin/AdminVariants.tsx:126-134 | a variant is kept iff the search hits its product's name, color, size or sku; the result is an ordered subsequence |
| AdminVariants.EmptySearchKeepsDescribed | src/pages/admin/AdminVariants.tsx:126-134 | with an empty search a variant is kept iff it has a named product, a color, a size or a sku |
| AdminVariants.VariantLabel | src/pages/admin/AdminVariants.tsx:328-330 | "color / size" when both are set, else whichever is set, else "-"; never empty |
| AdminVariants.LowStockRow | src/pages/admin/AdminVariants.tsx:318 | definition, no contract of its own: the row flag `stockQuantity < 10` on a present quantity |
| AdminVariants.EditForm | src/pages/admin/AdminVariants.tsx:83-95 | numbers as text that parse back ("" for no product, "0" for no stock or price), texts or "", active unless exactly false |
| AdminVariants.VariantsPage.constructor | src/pages/admin/AdminVariants.tsx:27-41 | empty lists, loading, closed dialog, the blank form |
| AdminVariants.VariantsPage.ProductNameOf | src/pages/admin/AdminVariants.tsx:136-139 | definition, no contract of its own: `getProductName` on the loaded products, which is AdminCommon.ProductName |
| AdminVariants.VariantsPage.LoadData | src/pages/admin/AdminVariants.tsx:48-67 | a failed or empty variants reply gives no variants; the products follow AdminCommon.ProductsAfter, so a `null` products body keeps them; loading ends off |
| AdminVariants.VariantsPage.SetSearch | src/pages/admin/AdminVariants.tsx:30 | the search text is replaced |
| AdminVariants.VariantsPage.HandleCreate | src/pages/admin/AdminVariants.tsx:69-81 | nothing is being edited, the form is blank with stock and price "0" and active, the dialog opens |
| AdminVariants.VariantsPage.HandleEdit | src/pages/admin/AdminVariants.tsx:83-95 | the variant is being edited, the form is its `EditForm`, the dialog opens |
| AdminVariants.VariantsPage.HandleSubmit | src/pages/admin/AdminVariants.tsx:116-124 | only the dialog closes; no list changes and no call is made |
| AdminVariants.VariantsPage.HandleDelete | src/pages/admin/AdminVariants.tsx:97-114 | unconfirmed: no call, nothing changes; confirmed: only the two reads of the reload, no mutating call, lists as LoadData sets them |
| AdminCategories.FilteredCategories | src/pages/admin/AdminCategories.tsx:142-145 | a category is kept iff the search hits its name; an ordered subsequence |
| AdminCategories.CategoryName | src/pages/admin/AdminCategories.tsx:147-151 | null for an absent or zero id; otherwise the first match's name when non-empty, else null |
| AdminCategories.CategoryNameFound | src/pages/admin/AdminCategories.tsx:147-151 | a returned name is non-empty and belongs to a category with that id |
| AdminCategories.EditForm | src/pages/admin/AdminCategories.tsx:72-81 | texts or "", the parent id as text that parses back or "", active unless exactly false |
| AdminCategories.UpdatePayloadOf | src/pages/admin/AdminCategories.tsx:108-112 | definition, no contract of its own: the update payload; specified by AdminCategories.EditSavesWithoutParent |
| AdminCategories.CreatePayloadOf | src/pages/admin/AdminCategories.tsx:119-124 | definition, no contract of its own: the create payload; specified by AdminCategories.CreateParsesParent |
| AdminCategories.UnchangedEditSendsBack | src/pages/admin/AdminCategories.tsx:72-112 | saving an edit without changes sends the category's name (or "" when it has none), its image only when non-empty, and its active flag unless it was exactly false |
| AdminCategories.EditSavesWithoutParent | src/pages/admin/AdminCategories.tsx:107-111 | an update sends the name and the active flag, the image only when not empty, and never a parent id |
| AdminCategories.CreateParsesParent | src/pages/admin/AdminCategories.tsx:119-124 | a create sends the parent id parsed, or none when blank; an id shown by the edit form parses back to itself |
| AdminCategories.CategoriesPage.constructor | src/pages/admin/AdminCategories.tsx:28-38 | no categories, loading, closed dialog, the blank active form |
| AdminCategories.CategoriesPage.LoadCategories | src/pages/admin/AdminCategories.tsx:45-59 | a reply replaces the list (an empty one gives none); a rejection keeps it; loading ends off |
| AdminCategories.CategoriesPage.HandleCreate | src/pages/admin/AdminCategories.tsx:61-70 | nothing is being edited, the blank form, the dialog opens |
| AdminCategories.CategoriesPage.HandleEdit | src/pages/admin/AdminCategories.tsx:72-81 | the category is being edited, the form is its `EditForm`, the dialog opens |
| AdminCategories.CategoriesPage.HandleSubmit | src/pages/admin/AdminCategories.tsx:104-140 | updates when editing and creates otherwise; a rejected save, or a `null` create body that throws before the log, changes nothing else; any other answer is logged, closes the dialog and reloads |
| AdminImages.FilteredImages | src/pages/admin/AdminImages.tsx:130-136 | an image is kept iff the search hits its product's name or its URL; an ordered subsequence |
| AdminImages.CreatePayloadOf | src/pages/admin/AdminImages.tsx:108-113 | the product id parsed, the variant id parsed or absent when blank, URL and primary flag passed through |
| AdminImages.SubmitCalls | src/pages/admin/AdminImages.tsx:96-128 | no call without a product id or URL; otherwise the create, then after an answer the log and the reload |
| AdminImages.MissingFieldNoCreate | src/pages/admin/AdminImages.tsx:98-105 | a form lacking the product id or the URL never reaches the create endpoint |
| AdminImages.ImagesPage.constructor | src/pages/admin/AdminImages.tsx:28-38 | empty lists, loading, closed dialog, the blank form |
| AdminImages.ImagesPage.ProductNameOf | src/pages/admin/AdminImages.tsx:138-141 | definition, no contract of its own: `getProductName` on the loaded products, which is AdminCommon.ProductName |
| AdminImages.ImagesPage.LoadData | src/pages/admin/AdminImages.tsx:45-64 | a failed or empty images reply gives no images; the products follow AdminCommon.ProductsAfter, so a `null` products body keeps them; loading ends off |
| AdminImages.ImagesPage.HandleCreate | src/pages/admin/AdminImages.tsx:66-74 | the form is blank and not primary, the dialog opens |
| AdminImages.ImagesPage.HandleSubmit | src/pages/admin/AdminImages.tsx:96-128 | the calls are `SubmitCalls`; only an answered create closes the dialog and reloads the lists as LoadData does; otherwise nothing changes |
| AdminProducts.FilteredProducts | src/pages/admin/AdminProducts.tsx:107-113 | a product is kept iff the search hits its name or its category's name; an ordered subsequence |
| AdminProducts.StatusKey | src/pages/admin/AdminProducts.tsx:358-365 | the "active" label iff the flag is not exactly false |
| AdminProducts.CreatePayloadOf | src/pages/admin/AdminProducts.tsx:119-126 | description absent when empty, category and seller ids parsed or absent when blank, name, price text and flag passed through |
| AdminProducts.ProductsPage.constructor | src/pages/admin/AdminProducts.tsx:45-65 | no products, loading, closed dialog, the default form |
| AdminProducts.ProductsPage.LoadProducts | src/pages/admin/AdminProducts.tsx:91-105 | a reply replaces the list (no content gives none); a rejection keeps it; loading ends off |
| AdminProducts.ProductsPage.HandleCreateProduct | src/pages/admin/AdminProducts.tsx:117-147 | one create call; a rejection, or a `null` body that throws before the log, changes nothing else; an answer with a body adds the log entry and the reload, closes the dialog and resets the form |
| AdminSellers.FilteredSellers | src/pages/admin/AdminSellers.tsx:44-48 | a seller is kept iff the search hits its name or e-mail; an ordered subsequence |
| AdminSellers.EmptySearchKeepsContactable | src/pages/admin/AdminSellers.tsx:44-48 | with an empty search exactly the sellers with a name or an e-mail are kept |
| AdminSellers.SellerStatus | src/pages/admin/AdminSellers.tsx:135-140 | "Active" iff the flag is not exactly false |

## Left out

- Network, `fetch`, `localStorage`, the session and token handling, toasts, navigation and timers. Backend replies are inputs, and the calls are returned as values.
- The variant id of a pushed cart line (`parseInt(item.id)` on a line that has no `id` field) is not part of the model. An add call carries only the cart id and the quantity.
- The replies to pushed cart lines are not inputs, because the handler ignores them.
- `Promise.all`: the dashboard, variants and images loads are modelled as one step over their results, not as concurrent requests.
- The `confirm()` dialog is a boolean input.
- Floating-point amounts, `toFixed` and `parseFloat`:
  - Cart and checkout amounts are integer cents.
  - The rendering of an admin number uses integer decimal digits.
  - The product `basePrice` is kept as the text handed to `parseFloat`.
- Coupon discount arithmetic happens on the server. The client only uses the `final_amount` it returns. A valid reply is assumed to carry the code, the discount and the final amount.
- Unicode: `trim` removes only ASCII white space, case mapping covers only ASCII letters, and `length` counts characters, not UTF-16 code units.
- `localeCompare` is a comparator parameter. The name order is proved sorted only when that comparator is a total preorder. JavaScript leaves the result unspecified for other comparators.
- Shop.Sort: for a comparator that is not a total preorder the engine's result is unspecified; the model's insertion sort is one permitted outcome, and only its permutation and stability are proved for such comparators.
- Checkout: the page's redirect to the cart when the cart is empty is rendering logic and is not modelled.
- Checkout: the coupon input's `disabled` state is not modelled.
- Checkout: JSON `null` reply bodies are not modelled. For them the code would dereference a null reply. The `null` bodies of the admin pages are modelled: dashboard orders and products page, products and categories creates, and the products page of the variants and images pages.
- Dashboard.LowStockCountBounds: a `null` stock quantity, which JavaScript compares as 0, is modelled as absent and so as not low. The same holds for `AdminVariants.LowStockRow`.
- Dashboard: `Number(order.totalPrice \|\| 0)` on a non-numeric total (`NaN`) is not modelled; totals are integers or absent.
- The delete handlers of the categories and images pages, and the categories/sellers list loads of the products page, are left out. Each is a request followed by a reload.
