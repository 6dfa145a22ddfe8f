# Storefront handlers in Dafny

This project models the handlers of a React storefront for traditional
health foods. Most of the storefront is markup. The logic sits in the event
handlers of eight screens:

- **M-Pesa payment.** The phone-number check, the request sent to the
  payment gateway, and the messages the gateway's reply leaves on screen.
- **Product catalog.** The response shapes the catalog accepts, the
  case-insensitive search, grouping by category, the like toggle, the
  image preview and the hand-off of a product to the payment screen.
- **Diabetes page.** The category filter applied to the reply, the search
  over names and descriptions, and the order hand-off with quantity one.
- **Order form.** Quantity parsing with its fallback to one, the running
  total, product selection, the required-field check and the reset after
  a placed order.
- **Register and Login.** Field-by-field validation that passes exactly
  when no error is recorded, the clearing of one field's error on edit,
  the messages a failed request leaves, and the session a login stores.
- **Add product.** The image type and size check, the required-field check
  and the failure-message fallbacks of the upload.
- **Navigation bar.** The session read from local storage, logout, and the
  password that unlocks the dashboard.

Each screen is one module. Shared modules give the JavaScript rules the
handlers rely on (`Js`, `Text`, `Seqs`), the values passed between screens
(`Catalog`) and the browser's storage and request failures (`Browser`).
`Checkout` relates the catalog pages to the payment screen.

The screens change state step by step, so each has two parts:

- a state datatype with pure step functions, one per handler, whose
  contracts state what the handler promises;
- a class with the component's fields, whose methods perform the
  handler's assignments in the handler's order and are proved to end in
  the state the step function gives.

Server replies, stored values and the outcome of each request are inputs.
Navigation is recorded as a value.

Two behaviours of the payment screen are worth knowing:

- The payment screen sends `product.price` as the amount. It never
  multiplies by a quantity, even when the diabetes page passes quantity 1
  along.
- The payment screen reads only the `message` field of the gateway's
  reply. A refusal that explains itself under `error` shows
  "Payment failed".

## Model

| member | source | states |
|---|---|---|
| Js.Or | src/pages/MpesaPayment.jsx:49 | `v \|\| fallback` on an optional string: the value when it is present and non-empty, else the fallback |
| Js.Or2 | src/Components/AddProduct.jsx:102-104 | `a \|\| b \|\| fallback`: the first of two optional strings that is non-empty, else the fallback |
| Text.Lower | src/Components/GetProducts.jsx:82-83 | `toLowerCase` keeps the length and lower-cases each character on its own |
| Text.ContainsIff | src/Components/GetProducts.jsx:82-83 | `includes` holds exactly when the needle occurs at some position |
| Text.ContainsNeedsChar | src/pages/Hypertension.jsx:33-35 | a string none of whose characters is some character of the needle does not include it |
| Text.TrimStart | src/Components/Register.jsx:39 | the result is a suffix, the part removed is all white space, and the result does not start with white space |
| Text.TrimEnd | src/Components/Register.jsx:39 | the result is a prefix, the part removed is all white space, and the result does not end with white space |
| Text.TrimEmptyIffBlank | src/Components/Register.jsx:39 | `!s.trim()` holds exactly when every character of `s` is white space |
| Text.TrimKeeps | src/Components/Register.jsx:39 | trimming leaves alone a string with visible characters at both ends |
| Text.Decimal | src/Components/OrderForm.jsx:38 | the decimal numeral of a number is a non-empty run of digits |
| Text.DecimalValue | src/Components/OrderForm.jsx:38 | the value of that numeral is the number it was written from |
| Text.DigitPrefix | src/Components/OrderForm.jsx:38 | the digit run `parseInt` reads is a prefix of digits that is followed by a non-digit or the end |
| Text.DigitPrefixOfNumeral | src/Components/OrderForm.jsx:38 | the digit run at the front of a numeral followed by a non-digit is the numeral |
| Text.ParseIntReadsNumeral | src/Components/OrderForm.jsx:38 | `parseInt` of a numeral followed by a non-digit is the numeral's value |
| Text.ParseIntReadsNegativeNumeral | src/Components/OrderForm.jsx:38 | `parseInt` of a minus sign and a numeral is the negated value |
| Text.ToNumberNumeral | src/Components/OrderForm.jsx:57 | the loose `==` turns a numeral back into the number it was written from |
| Text.MatchesPatternIff | src/pages/MpesaPayment.jsx:19 | an anchored pattern of single-character classes matches exactly the strings of its length whose every character its class accepts |
| Seqs.Filter | src/Components/GetProducts.jsx:81-84 | `filter` keeps exactly the elements that pass, in their order (a subsequence of the input) |
| Seqs.FilterCounts | src/Components/GetProducts.jsx:81-84 | each element that passes appears as often as in the input, and one that fails not at all, so no duplicate is dropped |
| Seqs.FilterAppend | src/Components/GetProducts.jsx:86-91 | filtering a concatenation filters each part |
| Seqs.FilterAll | src/Components/GetProducts.jsx:81-84 | a filter every element passes keeps the whole sequence |
| Seqs.FilterNone | src/Components/GetProducts.jsx:86-91 | a filter no element passes keeps nothing |
| MpesaPayment.PhonePattern | src/pages/MpesaPayment.jsx:19 | the pattern has twelve positions |
| MpesaPayment.ValidPhoneIff | src/pages/MpesaPayment.jsx:18-21 | a phone passes exactly when it has twelve characters: `254`, then `1` or `7`, then eight digits |
| MpesaPayment.ShapeMatches | src/pages/MpesaPayment.jsx:18-21 | every twelve-character `2547…`/`2541…` number followed by eight digits passes the pattern |
| MpesaPayment.MatchHasShape | src/pages/MpesaPayment.jsx:18-21 | every number that passes the pattern has that shape |
| MpesaPayment.PhoneExampleSeven | src/pages/MpesaPayment.jsx:19 | `254712345678` passes |
| MpesaPayment.PhoneExampleOne | src/pages/MpesaPayment.jsx:19 | `254112345678` passes |
| MpesaPayment.PhoneExamplesTooShort | src/pages/MpesaPayment.jsx:19 | the local `0712345678` and an eleven-digit number are refused |
| MpesaPayment.PhoneExamplesMisplaced | src/pages/MpesaPayment.jsx:19 | a fourth digit of 8, or a leading `+`, is refused |
| MpesaPayment.RefusesNumber | src/pages/MpesaPayment.jsx:18-21 | a phone of the wrong length, or with a wrong first or fourth character, is refused |
| MpesaPayment.AcceptsNumber | src/pages/MpesaPayment.jsx:18-21 | `254`, then `1` or `7`, then eight digits is accepted |
| MpesaPayment.PressPay | src/pages/MpesaPayment.jsx:23-39 | both messages are cleared; a bad phone sets the format error and sends nothing; a good one sends one request for the product's price and starts loading; a press while loading changes nothing |
| MpesaPayment.ReceiveOutcome | src/pages/MpesaPayment.jsx:41-57 | loading ends; a thrown error shows its own text; a refusal shows `message` or "Payment failed"; an acceptance shows `message` or "Payment initiated successfully"; never both messages |
| MpesaPayment.Submit | src/pages/MpesaPayment.jsx:23-57 | a whole submission ends with loading off and at most one message; a request is sent exactly when the phone is valid |
| MpesaPayment.ErrorFieldIgnored | src/pages/MpesaPayment.jsx:48-49 | a refusal with only an `error` field shows the default failure text |
| MpesaPayment.SubmissionsChargePrice | src/pages/MpesaPayment.jsx:38-39 | every request of any run of submissions carries the product's price as its amount, and each submission sends at most one |
| MpesaPayment.View | src/pages/MpesaPayment.jsx:60-134 | no product gives only the "No product data available." screen with a link home; otherwise the price shown is the product's, the button is disabled exactly while loading, and each alert shows exactly when its message is non-empty |
| MpesaPayment.AtMostOneAlert | src/pages/MpesaPayment.jsx:89-134 | after any submission the button is enabled and at most one alert shows |
| MpesaPayment.PaymentScreen.constructor | src/pages/MpesaPayment.jsx:5-12 | the product is read from the navigation state; all fields start empty |
| MpesaPayment.PaymentScreen.EditPhone | src/pages/MpesaPayment.jsx:123 | typing changes only the phone |
| MpesaPayment.PaymentScreen.Pay | src/pages/MpesaPayment.jsx:23-39 | the handler up to the request ends in `PressPay`'s state and returns the request it made |
| MpesaPayment.PaymentScreen.Receive | src/pages/MpesaPayment.jsx:41-57 | the handler after the request ends in `ReceiveOutcome`'s state |
| GetProducts.FilterProducts | src/Components/GetProducts.jsx:81-84 | a product is kept exactly when the lower-cased term occurs in its lower-cased name or category; each kept product appears as often as in the list; order is kept |
| GetProducts.EmptySearchKeepsAll | src/Components/GetProducts.jsx:81-84 | the empty term keeps every product in place |
| GetProducts.CategoryKey | src/Components/GetProducts.jsx:87 | the group key is the category, or "Uncategorized" for an empty one, and is never empty |
| GetProducts.GroupMembers | src/Components/GetProducts.jsx:86-91 | a group holds exactly the filtered products with its key |
| GetProducts.GroupKeys | src/Components/GetProducts.jsx:86-91 | the group keys in order of first appearance have no repeats |
| GetProducts.GroupKeysMembers | src/Components/GetProducts.jsx:86-91 | a key has a group exactly when some filtered product has that key |
| GetProducts.GroupByCategory | src/Components/GetProducts.jsx:86-91 | the `reduce` builds a group for exactly the keys that occur, in order of first appearance, each holding that key's products in filtered order |
| GetProducts.GroupStep | src/Components/GetProducts.jsx:86-91 | one step of the `reduce` creates the product's key when it is new and pushes the product onto that key's array, keeping every group equal to its key's products so far |
| GetProducts.GroupsPartition | src/Components/GetProducts.jsx:86-91 | every filtered product is in its own key's group and in no other |
| GetProducts.GroupSizesSum | src/Components/GetProducts.jsx:86-91 | the group sizes add up to the number of filtered products |
| GetProducts.ToggleRating | src/Components/GetProducts.jsx:70-75 | a liked product goes to 0 and any other to 1; every other product keeps its entry; counts of 0 and 1 stay 0 or 1 |
| GetProducts.ToggleTwice | src/Components/GetProducts.jsx:70-75 | two presses restore the count shown; from an unliked product they leave an entry of 0 |
| GetProducts.AfterFetch | src/Components/GetProducts.jsx:41-68 | a bare list or a `products` list replaces the products; any other body empties them with "Unexpected API response format."; a failure keeps them with the server's `message` or the default; loading ends; the error is empty exactly when a list arrived |
| GetProducts.FailureAlwaysExplained | src/Components/GetProducts.jsx:62-64 | a failed request always leaves a message, the default one when the server gave none |
| GetProducts.OrderRoute | src/Components/GetProducts.jsx:77-79 | ordering opens the payment screen with exactly `{product}`, no quantity, at the product's price |
| GetProducts.EmptyNotice | src/Components/GetProducts.jsx:200-202 | the empty-catalog line names the search exactly when a term is typed |
| GetProducts.ProductCatalog.constructor | src/Components/GetProducts.jsx:27-32 | the component's initial state |
| GetProducts.ProductCatalog.Fetch | src/Components/GetProducts.jsx:41-68 | `fetchProducts` ends in `AfterFetch`'s state |
| GetProducts.ProductCatalog.DismissError | src/Components/GetProducts.jsx:115 | closing the alert clears only the error |
| GetProducts.ProductCatalog.Search | src/Components/GetProducts.jsx:130 | typing changes only the search term |
| GetProducts.ProductCatalog.Like | src/Components/GetProducts.jsx:70-75 | the like button applies `ToggleRating` and changes nothing else |
| GetProducts.ProductCatalog.OpenImage | src/Components/GetProducts.jsx:154 | a click on an image previews its full URL |
| GetProducts.ProductCatalog.CloseImage | src/Components/GetProducts.jsx:215 | hiding the preview clears it |
| GetProducts.ProductCatalog.Order | src/Components/GetProducts.jsx:77-79 | the order button records `OrderRoute` and changes nothing else |
| GetProducts.ProductCatalog.Groups | src/Components/GetProducts.jsx:86-91 | the groups rendered are those of the products the current term keeps |
| GetProducts.MoringaMatches | src/Components/GetProducts.jsx:82 | "mor" finds Moringa by its name |
| GetProducts.GarlicMisses | src/Components/GetProducts.jsx:82-83 | "mor" finds neither Garlic's name nor its category "Immunity" |
| GetProducts.SearchExample | src/Components/GetProducts.jsx:81-84 | searching "mor" over Moringa and Garlic keeps Moringa alone |
| GetProducts.GroupExample | src/Components/GetProducts.jsx:86-91 | Moringa alone gives one group, "Diabetes", holding it |
| Hypertension.DiabetesProducts | src/pages/Hypertension.jsx:31-36 | a product is kept exactly when its category is "diabetes" in any case, its health benefits mention "blood sugar", or its name mentions "bitter" or "moringa"; each kept product appears as often as in the reply; order is kept |
| Hypertension.CategoryAloneSuffices | src/pages/Hypertension.jsx:32 | the category alone is enough to keep a product |
| Hypertension.SearchProducts | src/pages/Hypertension.jsx:50-53 | a product is kept exactly when the term occurs in its name or in a present, non-empty description; each kept product appears as often as in the list; order is kept |
| Hypertension.SearchIgnoresCategory | src/pages/Hypertension.jsx:50-53 | changing only the category never changes whether a product is kept |
| Hypertension.EmptySearchKeepsAll | src/pages/Hypertension.jsx:50-53 | the empty term keeps every product in place |
| Hypertension.OrderNow | src/pages/Hypertension.jsx:55-67 | the order copies `product_id`, name, price and image and always passes quantity 1 |
| Hypertension.AfterFetch | src/pages/Hypertension.jsx:25-45 | a list is filtered and stored and the error cleared; a reply without a list, or a failure, keeps the products and shows the server's `error` or the default; loading ends |
| Hypertension.EmptyMessage | src/pages/Hypertension.jsx:107-113 | the empty-result message depends only on whether a term is typed |
| Hypertension.Render | src/pages/Hypertension.jsx:100-116 | spinner while loading, then the error, then the empty message, then exactly the products the search keeps |
| Hypertension.GridShowsDiabetesMatches | src/pages/Hypertension.jsx:31-53 | the grid after a reply shows exactly the reply's diabetes products that match the term |
| Hypertension.DiabetesPage.constructor | src/pages/Hypertension.jsx:18-21 | the page starts loading, with no products and no error |
| Hypertension.DiabetesPage.Fetch | src/pages/Hypertension.jsx:25-45 | the effect ends in `AfterFetch`'s state |
| Hypertension.DiabetesPage.Search | src/pages/Hypertension.jsx:92 | typing changes only the search term |
| Hypertension.DiabetesPage.Order | src/pages/Hypertension.jsx:148 | the order button records `OrderNow` |
| OrderForm.ParseQuantity | src/Components/OrderForm.jsx:38 | `parseInt(v) \|\| 1` is never 0: it is the parsed number, or 1 when parsing gives NaN or 0 |
| OrderForm.QuantityOfNumeral | src/Components/OrderForm.jsx:38 | a typed positive count is taken as it is |
| OrderForm.ZeroFallsBackToOne | src/Components/OrderForm.jsx:38 | a typed "0" gives 1 |
| OrderForm.WordFallsBackToOne | src/Components/OrderForm.jsx:38 | a typed word gives 1 |
| OrderForm.TotalFor | src/Components/OrderForm.jsx:39 | the total is price times quantity when the quantity is a number, and "NaN" otherwise |
| OrderForm.EditField | src/Components/OrderForm.jsx:34-53 | with a product selected a quantity edit stores the parsed count and its total; any other edit stores the raw value in its own field only; the form stays consistent |
| OrderForm.FindProduct | src/Components/OrderForm.jsx:57 | `find` returns the first product whose id equals the selected value, and nothing exactly when none does |
| OrderForm.SelectProduct | src/Components/OrderForm.jsx:55-76 | a match sets the id, the selection and the total for the current quantity; no match clears all three; the other fields stay; the form is consistent afterwards |
| OrderForm.EmailOptional | src/Components/OrderForm.jsx:83-84 | the email never decides whether the form is complete |
| OrderForm.AfterLoad | src/Components/OrderForm.jsx:20-32 | the load stores the list, or shows "Failed to load products"; loading ends either way |
| OrderForm.SubmitOrder | src/Components/OrderForm.jsx:78-116 | an incomplete form only shows the required message; a complete one is posted; a 201 shows the success message and resets the form but keeps the products; a failure shows `error` or the default; the form stays consistent |
| OrderForm.SentOnlyWhenComplete | src/Components/OrderForm.jsx:83-99 | a request is sent exactly when the form is complete, with the form's total |
| OrderForm.PostedTotalIsPriceTimesQuantity | src/Components/OrderForm.jsx:39-99 | the total posted is the selected product's price times the quantity posted |
| OrderForm.OrderScreen.constructor | src/Components/OrderForm.jsx:5-17 | the empty form with quantity 1, loading |
| OrderForm.OrderScreen.Load | src/Components/OrderForm.jsx:20-32 | the effect ends in `AfterLoad`'s state |
| OrderForm.OrderScreen.Change | src/Components/OrderForm.jsx:34-53 | `handleChange` ends in `EditField`'s form |
| OrderForm.OrderScreen.ChangeProduct | src/Components/OrderForm.jsx:55-76 | `handleProductChange` ends in `SelectProduct`'s form |
| OrderForm.OrderScreen.Submit | src/Components/OrderForm.jsx:78-116 | `handleSubmit` ends in `SubmitOrder`'s state |
| Register.FirstAt | src/Components/Register.jsx:37 | the position of the first '@', or the length when there is none |
| Register.EmailTestSound | src/Components/Register.jsx:37 | every address the test accepts is `local@domain.tld` with three non-empty runs of characters that are neither white space nor '@' |
| Register.EmailTestComplete | src/Components/Register.jsx:37 | every such address passes the test |
| Register.IsEmailIff | src/Components/Register.jsx:37 | the test accepts exactly the addresses of the pattern's shape |
| Register.EmailRejectsSpace | src/Components/Register.jsx:37 | an address with white space anywhere is refused |
| Register.EmailRejectsSecondAt | src/Components/Register.jsx:37 | an address with a second '@' is refused |
| Register.RegisterErrors.Cleared | src/Components/Register.jsx:72-74 | a shown message of the edited field is blanked, its key kept, and every other field's entry stays |
| Register.ValidationErrors | src/Components/Register.jsx:35-60 | a name error exactly when the name is blank; an email error exactly when a non-empty email fails the test; a phone error exactly when it is empty; a password error exactly when it is shorter than 8 ("required" when empty); a confirmation error exactly when the two differ; each with its message |
| Register.BuildErrors | src/Components/Register.jsx:35-60 | the rule-by-rule construction gives `ValidationErrors` |
| Register.ValidIff | src/Components/Register.jsx:61-62 | validation passes exactly for a non-blank name, an empty or well-formed email, a phone, and a password of at least 8 characters typed the same twice |
| Register.MismatchReportedBesidePasswordError | src/Components/Register.jsx:51-59 | an empty password with a typed confirmation reports both errors |
| Register.FailureMessage | src/Components/Register.jsx:109-114 | a server reply gives its `error` or the default; no reply gives the network message |
| Register.Edit | src/Components/Register.jsx:64-75 | an edit stores the value and blanks only that field's message |
| Register.Submit | src/Components/Register.jsx:77-120 | the errors are stored; an invalid form sends nothing and changes nothing else; a valid one is posted once, ends with the button enabled, and shows the server's message (with a move home) or the failure message, never both |
| Register.Post | src/Components/Register.jsx:84-119 | the request is sent; success shows a message and moves home; failure shows a message; the button is enabled again |
| Register.Validated | src/Components/Register.jsx:77-82 | both messages are cleared and the errors stored, and the stored errors have no keys exactly when the form is acceptable |
| Register.Conclude | src/Components/Register.jsx:82-119 | the registration is sent exactly when the error map has no keys; with keys, nothing is sent and the redirect and button stay; at most one message shows; the redirect changes only to the home page after a success |
| Register.ShortPasswordNeverSent | src/Components/Register.jsx:53-82 | a password shorter than 8 is never sent |
| Register.RegisterScreen.constructor | src/Components/Register.jsx:21-32 | the empty form with no errors |
| Register.RegisterScreen.Validate | src/Components/Register.jsx:35-63 | `validateForm` stores `ValidationErrors` and returns whether the form is acceptable |
| Register.RegisterScreen.Change | src/Components/Register.jsx:64-75 | `handleChange` ends in `Edit`'s state |
| Register.RegisterScreen.HandleSubmit | src/Components/Register.jsx:77-120 | `handleSubmit` ends in `Submit`'s state |
| Register.RegisterScreen.Send | src/Components/Register.jsx:84-119 | the request and its outcome end in `Post`'s state |
| Login.DigitRun | src/Components/Login.jsx:33 | `[0-9]` repeated `n` times |
| Login.LoginPhoneIsRepetition | src/Components/Login.jsx:33 | a phone passes exactly when it is 10 to 15 digits, that is when one of the fixed runs of 10 to 15 digits matches it |
| Login.LoginErrors.Cleared | src/Components/Login.jsx:57-59 | a shown message of the edited field is blanked, its key kept, and the other field's entry stays |
| Login.ValidationErrors | src/Components/Login.jsx:31-44 | a phone error exactly when the phone is not 10 to 15 digits ("required" exactly when it is empty); a password error exactly when it is empty |
| Login.BuildErrors | src/Components/Login.jsx:31-44 | the rule-by-rule construction gives `ValidationErrors` |
| Login.ValidIff | src/Components/Login.jsx:45-46 | validation passes exactly for a 10-to-15-digit phone and a non-empty password |
| Login.UserFromReply | src/Components/Login.jsx:87-93 | the user record copies the reply's fields; its token is the reply's, or '' when absent |
| Login.FailureMessage | src/Components/Login.jsx:106-124 | 401, 429 and 500 give their fixed messages; any other status gives `error` or the default; no reply gives the network message |
| Login.Edit | src/Components/Login.jsx:49-60 | an edit stores the value and blanks only that field's message |
| Login.SaveSession | src/Components/Login.jsx:95-96 | storage gains the user record under `user` and its token under `token`; every other key stays |
| Login.Post | src/Components/Login.jsx:68-129 | the request is sent; success stores the session, calls the handler when there is one and moves home; failure shows the message and leaves storage and navigation alone; the button is enabled again |
| Login.Submit | src/Components/Login.jsx:62-130 | the errors are stored and the API error cleared; an invalid form changes nothing else; a valid one is `Post` |
| Login.BadPhoneNeverSent | src/Components/Login.jsx:33-66 | a phone that is not 10 to 15 digits is never sent, stores nothing and opens no page |
| Login.StoredTokenIsReplyToken | src/Components/Login.jsx:87-96 | after a login the stored token and the stored user's token are the reply's token, or '' |
| Login.FailedLoginKeepsSession | src/Components/Login.jsx:105-126 | a failed login leaves storage and navigation alone and shows a message |
| Login.LoginScreen.constructor | src/Components/Login.jsx:20-29 | the empty form over the browser's storage, with or without a success handler |
| Login.LoginScreen.Validate | src/Components/Login.jsx:31-47 | `validateForm` stores `ValidationErrors` and returns whether the form is valid |
| Login.LoginScreen.Change | src/Components/Login.jsx:49-60 | `handleChange` ends in `Edit`'s state |
| Login.LoginScreen.HandleSubmit | src/Components/Login.jsx:62-130 | `handleSubmit` ends in `Submit`'s state |
| Login.LoginScreen.Send | src/Components/Login.jsx:68-129 | the request and its outcome end in `Post`'s state |
| AddProduct.ChooseFile | src/Components/AddProduct.jsx:25-44 | no file changes nothing; a non-image only sets its message; an image over 2 MiB only sets the size message; any other file becomes the image and the preview and clears the message; the image changes only that way |
| AddProduct.SizeLimitIsInclusive | src/Components/AddProduct.jsx:35-38 | an image of exactly 2 MiB is taken; one byte more is refused |
| AddProduct.ImageAnywhereInTypePasses | src/Components/AddProduct.jsx:29 | any type containing "image" passes the unanchored test |
| AddProduct.TypeWithoutImageFails | src/Components/AddProduct.jsx:29 | a type without the letter 'g' is refused |
| AddProduct.RemoveImage | src/Components/AddProduct.jsx:213-216 | the image and its preview go; the rest stays |
| AddProduct.AuthorizationHeader | src/Components/AddProduct.jsx:77 | the header is "Bearer " and the stored token, or "Bearer null" without one |
| AddProduct.FailureMessage | src/Components/AddProduct.jsx:102-105 | the server's `error`, else the error's `message`, else "Error adding product" |
| AddProduct.Submit | src/Components/AddProduct.jsx:46-109 | the button is enabled afterwards and the form is untouched; a form missing a name, price, stock, category or image only shows the required message; a complete one is uploaded once and shows the success message with a reset scheduled, or the failure message |
| AddProduct.Upload | src/Components/AddProduct.jsx:62-108 | the upload is sent; success schedules a reset; the button is enabled again |
| AddProduct.BlankNameRefused | src/Components/AddProduct.jsx:56-60 | a name of only white space is refused with the required message |
| AddProduct.DescriptionOptional | src/Components/AddProduct.jsx:56 | the description never decides whether the form is complete |
| AddProduct.ResetFires | src/Components/AddProduct.jsx:88-99 | the reset empties the form and preview and opens the home page |
| AddProduct.ResetFormIsRefused | src/Components/AddProduct.jsx:56-99 | after a successful upload and its reset, submitting again sends nothing |
| AddProduct.AddProductScreen.constructor | src/Components/AddProduct.jsx:6-17 | the empty form with no image or message |
| AddProduct.AddProductScreen.Change | src/Components/AddProduct.jsx:20-23 | `handleChange` sets one text field |
| AddProduct.AddProductScreen.HandleFileChange | src/Components/AddProduct.jsx:25-44 | `handleFileChange` ends in `ChooseFile`'s state |
| AddProduct.AddProductScreen.HandleRemoveImage | src/Components/AddProduct.jsx:213-216 | the button ends in `RemoveImage`'s state |
| AddProduct.AddProductScreen.HandleSubmit | src/Components/AddProduct.jsx:46-109 | `handleSubmit` ends in `Submit`'s state |
| AddProduct.AddProductScreen.Send | src/Components/AddProduct.jsx:62-108 | the upload and its outcome end in `Upload`'s state |
| AddProduct.AddProductScreen.OnResetTimer | src/Components/AddProduct.jsx:88-99 | the timer ends in `ResetFires`'s state |
| AddProduct.AddProductScreen.Cancel | src/Components/AddProduct.jsx:228 | Cancel goes back one page |
| AppNavbar.TruthyItem | src/Components/AppNavbar.jsx:32-33 | a stored value is read exactly when present and non-empty |
| AppNavbar.StoredCartCount | src/Components/AppNavbar.jsx:37-38 | the count is 0 when nothing truthy is stored, `parseInt` of the stored text otherwise, and not a number when a user record sits under the key |
| AppNavbar.Loaded | src/Components/AppNavbar.jsx:31-39 | the user is set when storage holds a truthy one and kept otherwise; the cart count is read; nothing else changes |
| AppNavbar.UserLoadedIffStored | src/Components/AppNavbar.jsx:31-35 | on a fresh bar the user is set exactly when storage holds one |
| AppNavbar.StoredCountReadBack | src/Components/AppNavbar.jsx:37-38 | a count stored as a numeral is read as that number |
| AppNavbar.Logout | src/Components/AppNavbar.jsx:41-47 | exactly `user`, `token` and `hasDashboardAccess` leave storage, the user is forgotten, and the home page opens |
| AppNavbar.AccessDashboard | src/Components/AppNavbar.jsx:53-67 | the right password clears the error, closes the dialog, stores access and opens `/admin` for a signed-in user or `/login` otherwise, and changes nothing else (the typed password stays); a wrong one only raises the error |
| AppNavbar.AccessNeedsPassword | src/Components/AppNavbar.jsx:55-58 | storage changes only with the right password |
| AppNavbar.LoggedOutAccessGoesToLogin | src/Components/AppNavbar.jsx:41-63 | after logout the right password stores access and opens `/login` |
| AppNavbar.NavbarScreen.constructor | src/Components/AppNavbar.jsx:24-28 | no user, dialog closed, count 0 |
| AppNavbar.NavbarScreen.Mount | src/Components/AppNavbar.jsx:31-39 | the effect ends in `Loaded`'s state |
| AppNavbar.NavbarScreen.HandleLogout | src/Components/AppNavbar.jsx:41-47 | `handleLogout` ends in `Logout`'s state |
| AppNavbar.NavbarScreen.HandleDashboardClick | src/Components/AppNavbar.jsx:49-51 | the icon only opens the dialog |
| AppNavbar.NavbarScreen.TypePassword | src/Components/AppNavbar.jsx:170 | typing changes only the password |
| AppNavbar.NavbarScreen.HideModal | src/Components/AppNavbar.jsx:183 | Cancel only closes the dialog |
| AppNavbar.NavbarScreen.HandleDashboardAccess | src/Components/AppNavbar.jsx:53-67 | `handleDashboardAccess` ends in `AccessDashboard`'s state |
| Browser.ClearedMessage | src/Components/Register.jsx:72-74 | a shown message becomes blank and keeps its key; an absent one stays absent |
| Checkout.CatalogOrderChargesPrice | src/Components/GetProducts.jsx:77-79 | every payment request for a catalog order charges the product's price |
| Checkout.DiabetesOrderChargesPrice | src/pages/Hypertension.jsx:55-67 | a diabetes-page order passes quantity 1, yet every payment request charges the price alone, as for the catalog |
| Checkout.QuantityIgnored | src/pages/MpesaPayment.jsx:39 | the quantity in the navigation state never changes the amount |

## Left out

- The regular-expression engine: each pattern is restated as a predicate on characters, with a lemma tying it to the pattern's shape.
- `toLowerCase` is modelled on ASCII letters only; other scripts are left as they are.
- `parseInt` is decimal only (no `0x` prefix). `Number` reads decimal integers only: fractions, exponents, the `0x`, `0o` and `0b` radix forms and `Infinity` all count as not a number, where JavaScript gives a value.
- Money is whole cents; `toFixed(2)`, `parseFloat` and floating-point rounding are not modelled.
- Network requests, `localStorage` and `navigate` are values: replies and failures are inputs, storage is a map field, navigation is a recorded target. HTTP, timeouts and JSON parsing are not modelled.
- Async interleaving: each submission is one step with its outcome as input. The reset timer of the add-product screen is a separate step, counted in `pendingResets`; the register screen's delayed move home is recorded as the target at once.
- `URL.createObjectURL`: the preview holds the file it shows, not a URL.
- String lengths count characters, not UTF-16 code units.
- The order of `Object.entries` for integer-like category names: groups are taken in order of first appearance.
- GetProducts.GroupByCategory: the reduce starts from `{}`, so a category named after an inherited `Object.prototype` member (`constructor`, `toString`, `valueOf`, `hasOwnProperty`, `isPrototypeOf`, `propertyIsEnumerable`, `toLocaleString`, `__proto__`, `__defineGetter__` and the like) finds a truthy value already there, gets no array, and `push` throws a `TypeError`, so the catalog fails to render. The model treats every category as an ordinary key and builds its group.
- The `TypeError`s of missing fields (`product.name` undefined and the like): the records always carry their fields. A body with no `products` list on the diabetes page is modelled as the failure it causes.
- The show-password toggles of Register and Login, and the markup.
- GetProducts.ToggleTwice: "twice gives 0" is proved only from an unliked product, because from a liked one two presses give 1 again.
- `console.log` and `console.error` calls.
