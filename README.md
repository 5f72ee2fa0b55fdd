# Circula marketplace — a Dafny model

Circula is a second-hand marketplace. Customers sign up, log in, list items with a
photo, browse and filter the unsold items, keep a wishlist, buy an item with a
saved or a new card, and manage their saved card. Administrators see users,
items, purchases, feedback and the category tree, and can change statuses. This
project models the Express back end's route handlers (`backend/server.js`) and
the React pages that drive them. It proves what those handlers and pages promise.

Modules:

- `Optional`: the `Option` type.
- `Strings`: the JavaScript string built-ins the code relies on: `\d` and `\s`
  tests, `trim`, `toLowerCase` (ASCII), `includes`, `substring`,
  `toString` of ids.
- `Sorting`: the pages' comparators, `Array.prototype.filter`/`map`, a sort
  specified by permutation and order, and the sort-header click rule.
- `CardRules`: the server's `validateCardDetails` and the card formatters and
  expiry checks shared by the card and payment pages. The current month is a
  parameter.
- `FormRules`: the e-mail and phone regular expressions of the sign-up and
  login forms.
- `Marketplace`: the database as a `Store` class with tables as maps and
  sequences. It has one method per modelled route. It proves the
  sold-flag invariant: an item is sold exactly when one of its orders has a
  `Success` payment.
- `QueryParams`: the dynamic SQL built by the admin purchase and feedback
  routes. Every `?` placeholder gets exactly one parameter.
- One module per page: `CardPage`, `PaymentPage`, `SignupPage`,
  `LoginPage`, `ListItemPage`, `ProductsPage`, `AdminPurchasePage`,
  `AdminFeedbackPage`, `AdminItemsPage`, `UsersPage`, `AdminCategoriesPage`.
  Each has a `Page` class. Its fields are the component's state and its
  methods are the handlers.

The network, `localStorage` and the clock are parameters. A handler that awaits
a reply is split into the part before the request and a method that receives the
answer.

## Model

| member | source | states |
|---|---|---|
| Marketplace.OrNull | backend/server.js:103-106 | an absent or empty optional field is stored as NULL; any other value is stored as given |
| Marketplace.HasSuccessIffCount | backend/server.js:766-777 | the sold-out query (a `Success` payment exists for the item) finds a row exactly when the count of successful payments is positive |
| Marketplace.PaySuccessKeepsSold | backend/server.js:816-829 | marking the item sold and adding one `Success` payment, when none existed, keeps "sold iff exactly one successful payment" for every item |
| Marketplace.WithStatus | backend/server.js:1455-1462 | the admin status update rewrites the status of every payment row of that order and leaves all other rows as they were |
| Marketplace.OverrideCanBreakSoldInvariant | backend/server.js:1444-1485 | a concrete store where the admin's "Failed" override leaves a sold item with no successful payment: the route does not keep the sold invariant |
| Marketplace.ParsePaymentStatus | backend/server.js:1450-1453 | only "Success" and "Failed" are accepted payment statuses |
| Marketplace.ParseUserStatus | backend/server.js:583-585 | only "Active" and "Inactive" are accepted user statuses |
| Marketplace.Toggle | backend/server.js:355-368 | the (user, item) pair is in the new wishlist iff it was not in the old one; every other pair is unchanged |
| Marketplace.ToggleTwice | backend/server.js:355-368 | toggling the same item twice restores the wishlist |
| Marketplace.EditedImage | backend/server.js:1096-1099 | with no upload the old image URL is kept; otherwise the URL is `/uploads/product-images/` plus the stored file name |
| Marketplace.Store.constructor | backend/server.js:66-137 | the store starts with empty tables and satisfies referential integrity and the sold invariant |
| Marketplace.Store.Signup | backend/server.js:66-137 | a duplicate e-mail gives 400 "Email already exists"; otherwise a duplicate username gives 400 "Username already exists"; otherwise a missing or empty password gives 400 "Password is required"; otherwise a new Customer/Active account is added with optional fields stored through OrNull; a refused sign-up changes nothing; the sold invariant is kept |
| Marketplace.Store.AddItem | backend/server.js:254-281 | a missing image gives 400 "Product image is required" and changes nothing; with an image the answer is 201 "Item listed successfully" and one new unsold item owned by the user is added with the image path; the sold invariant is kept |
| Marketplace.Store.CreateOrder | backend/server.js:667-700 | an order is created (201) iff the product exists and is unsold; otherwise 404 and nothing changes; the sold invariant is kept |
| Marketplace.Store.Pay | backend/server.js:742-845 | 404 iff the order is not the user's; 400 "Item is sold out" iff a successful payment exists; 400 "Invalid card details" iff validateCardDetails fails; when every check passes and the item is not yet marked sold the answer is 200 "Payment processed successfully"; on 200 the item is sold, the user's card is upserted with the stored date and one `Success` payment is appended; the 500 modelled (one of the handler's causes of a 500: the conditional sold update touching no row) rolls everything back; from a store that keeps the sold invariant the result is never 500 and the invariant is kept |
| Marketplace.Store.Charge | backend/server.js:789-833 | the transaction's writes: the conditional sold update matches iff the item is unsold; then the card upsert and payment insert are committed (200); otherwise all writes are rolled back (500) |
| Marketplace.Store.UpsertCard | backend/server.js:789-809 | the customer's card row is inserted or replaced; an existing row keeps its id and a new one takes the next id |
| Marketplace.Store.RecordPayment | backend/server.js:816-829 | the committed writes: the order's item is marked sold and one `Success` payment row is appended |
| Marketplace.Store.ToggleWishlist | backend/server.js:345-373 | a missing or zero item id gives 400 and no change; otherwise the answer is 200, the pair is toggled and the reply says "Removed from wishlist" exactly when it was present |
| Marketplace.Store.DeleteProduct | backend/server.js:1059-1078 | 404 iff the product does not exist; 403 iff it is another user's; 400 iff it is sold, then 400 iff it has orders; when all guards pass the answer is 200 "Product deleted successfully" and exactly that product is removed; the sold invariant is kept |
| Marketplace.Store.EditProduct | backend/server.js:1081-1121 | 404 iff the product does not exist; 403 iff it is another user's; 400 iff it is sold; otherwise the answer is 200 and the name, price and image (through EditedImage) are replaced and the description goes through OrNull; the other items are unchanged |
| Marketplace.Store.SaveCard | backend/server.js:929-963 | the user's card row is inserted or replaced; an existing card keeps its id |
| Marketplace.Store.UpdateCard | backend/server.js:966-992 | with no saved card the reply is 500 and nothing changes; otherwise the card's fields are replaced under the same id |
| Marketplace.Store.DeleteCard | backend/server.js:995-1017 | the user's card is removed; the reply is 500 iff there was none |
| Marketplace.Store.UpdateUserStatus | backend/server.js:578-593 | an invalid status gives 400 and no change; otherwise that user's status is replaced (an unknown id changes nothing) |
| Marketplace.Store.OverridePaymentStatus | backend/server.js:1444-1485 | an invalid status gives 400; an order with no payment row gives 404; otherwise the answer is 200 and the payment rows are WithStatus of the old ones |
| Marketplace.BearerToken | backend/server.js:232-251 | no header or a header not starting with "Bearer " gives no token; a token never contains a space |
| Marketplace.BearerTokenRoundTrip | backend/server.js:234-238 | the header "Bearer " + t yields t back for any token t without spaces |
| QueryParams.Extend | backend/server.js:1337-1356 | appending a clause and its values keeps placeholders and parameters in step |
| QueryParams.LikePattern | backend/server.js:1354 | the LIKE pattern is the search term wrapped in `%` on both sides |
| QueryParams.Placeholders | backend/server.js:1352-1355 | a clause built from n column heads has exactly n placeholders |
| QueryParams.AddFilter | backend/server.js:1337-1350 | a given filter adds one clause with one placeholder and its value as the one parameter; an absent or empty one adds nothing |
| QueryParams.AddSearch | backend/server.js:1352-1356 | a given search adds one LIKE clause per column and the pattern once per column; otherwise nothing |
| QueryParams.PurchasesQuery | backend/server.js:1317-1367 | the purchases query has exactly as many placeholders as parameters, and the parameters are status, dates and four search patterns in that order |
| QueryParams.PurchaseParamsCount | backend/server.js:1337-1356 | the parameter count is one per given filter plus four when a search is given |
| QueryParams.FeedbacksQuery | backend/server.js:1641-1669 | the feedback query has as many placeholders as parameters: three search patterns or none |
| CardRules.ExpiryMonth | backend/server.js:877 | the month part of an `MM/YY` string is a two-digit number |
| CardRules.ExpiryYear | backend/server.js:877 | the year part of an `MM/YY` string is a two-digit number |
| CardRules.ExpiryAcceptedMeaning | backend/server.js:882-890 | an expiry is accepted iff its month is 1-12 and it is not before the current month and year |
| CardRules.CurrentMonthAccepted | backend/server.js:882-890 | a card expiring this month is accepted |
| CardRules.LastMonthRejected | backend/server.js:882-890 | a card that expired last month is refused |
| CardRules.MonthOutOfRangeRejected | backend/server.js:882-890 | month 00 or above 12 is refused whatever the year |
| CardRules.ValidateCardDetails | backend/server.js:848-899 | card details are valid iff the number's digits are exactly 16, the CVV is exactly 3 digits, the expiry has the `MM/YY` shape and is accepted, and the trimmed holder name has at least 3 characters |
| CardRules.PaddedCvvRejected | backend/server.js:866-869 | a CVV with a leading space is refused (the CVV is not trimmed) |
| CardRules.GroupedNumberValidates | backend/server.js:860-863 | a number grouped with spaces by the display formatter validates exactly as the plain digits do |
| CardRules.FormatNumberInput | frontend/src/components/Card.js:67 | the number field keeps at most 16 digits, in order, dropping everything else |
| CardRules.FormatCvvInput | frontend/src/components/Payment.js:108 | the CVV field keeps at most 3 digits, in order |
| CardRules.FormatHolderInput | frontend/src/components/Card.js:74 | the holder field is cut to 25 characters; shorter input is kept as is |
| CardRules.FormatExpiryInputMeaning | frontend/src/components/Card.js:68-72 | the expiry field keeps at most 4 digits and puts a slash after the first two when there are more than two |
| CardRules.FormatExpiryInputExamples | frontend/src/components/Card.js:68-72 | "1225" becomes "12/25", "12" stays, "12345" becomes "12/34" |
| CardRules.FormatExpiryInputIdempotent | frontend/src/components/Card.js:68-72 | formatting an already formatted expiry changes nothing |
| CardRules.FormattedExpiryShape | frontend/src/components/Card.js:68-72 | four or more typed digits always give the `MM/YY` shape |
| CardRules.GroupDigits | frontend/src/components/Card.js:188-194 | grouping by four inserts one space per full group after the first |
| CardRules.GroupDigitsRemoveSpaces | frontend/src/components/Card.js:188-194 | removing the spaces from the grouped number gives the digits back |
| CardRules.GroupDigitsDigits | frontend/src/components/Card.js:188-194 | the grouped number has the same digits in the same order |
| CardRules.FormatCardNumberDigits | frontend/src/components/Card.js:188-194 | the display format keeps the digits of any number |
| CardRules.FormatSixteenDigits | frontend/src/components/Card.js:188-194 | a 16-digit number displays as 19 characters and round-trips through space removal |
| CardRules.CardType | frontend/src/components/Card.js:197-213 | the brand is chosen by the first digit: 4 Visa, 5 MasterCard, 3 American Express, 6 Discover, else Credit Card; empty for no number |
| CardRules.ExpiryToDate | backend/server.js:785-786 | `MM/YY` is stored as a ten-character `20YY-MM-01` date |
| CardRules.DateToExpiry | frontend/src/components/Card.js:52 | a stored date of seven or more characters shows as a five-character `MM/YY` |
| CardRules.ExpiryDateRoundTrip | frontend/src/components/Card.js:120-121 | storing an expiry and showing it again gives the same `MM/YY` |
| CardRules.StoredDateRoundTrip | frontend/src/components/Card.js:48-54 | a stored date shown as `MM/YY` and saved again is the same date |
| FormRules.EmailCheckMatches | frontend/src/components/Signup.js:99-101 | the one-pass e-mail check accepts exactly the strings matching `^[^\s@]+@[^\s@]+\.[^\s@]+$` |
| FormRules.EmailCheckRefuses | frontend/src/components/Signup.js:99-101 | in a matching address the first character that is white space or `@` is an `@` after a non-empty name, no white space or `@` follows it, and the domain has a dot with text on both sides |
| FormRules.EmailMatchesNotBlank | frontend/src/components/Signup.js:99-101 | an address that matches the pattern is never blank, so the "required" branch and the pattern branch do not overlap |
| FormRules.PhoneMatchesDigits | frontend/src/components/Signup.js:108-109 | the phone pattern accepts digits with an optional leading `+`: 2 to 15 digits, the first not 0 |
| SignupPage.FormValidMeaning | frontend/src/components/Signup.js:93-115 | the form is valid iff the username is not blank and has at least 3 characters, the e-mail matches, the password has at least 8 characters and the confirmation equals it, the phone is empty or matches, and the city is empty or has at least 2 characters |
| SignupPage.FormErrors | frontend/src/components/Signup.js:93-115 | each field has the error message its rule gives and no field without one; the map is empty iff the form is valid |
| SignupPage.NonNullMembers | frontend/src/components/Signup.js:121-126 | an entry is sent iff it is in the form and its value is not null |
| SignupPage.FormDataToSend | frontend/src/components/Signup.js:121-126 | the loop over the form appends exactly the non-null entries, in order |
| SignupPage.NonNullKeepsAll | frontend/src/components/Signup.js:121-126 | when no value is null every entry is sent in order |
| SignupPage.SignupBody | frontend/src/components/Signup.js:117-151 | once a file was chosen all seven fields are sent with the file last; once the input was cleared the picture goes as an empty text value; while the input was never touched only the first six are sent |
| SignupPage.Page.constructor | frontend/src/components/Signup.js:49-66 | the form starts empty with no errors |
| SignupPage.Page.HandleChange | frontend/src/components/Signup.js:83-91 | only the named field takes the typed value |
| SignupPage.Page.PictureChosen | frontend/src/components/Signup.js:83-91 | a chosen file becomes the profile picture; a change without a file stores the input's empty value |
| SignupPage.Page.HandleSubmit | frontend/src/components/Signup.js:117-151 | errors are those of FormErrors; a body is sent iff the form is valid and then holds the non-null entries |
| LoginPage.FormValidMeaning | frontend/src/components/Login.js:69-85 | the form is valid iff the e-mail matches the pattern and the password is not empty |
| LoginPage.FormErrors | frontend/src/components/Login.js:69-85 | each field's error is the one its rule gives; empty iff valid |
| LoginPage.Decide | frontend/src/components/Login.js:116-156 | an accepted inactive user is blocked; an accepted active user is signed in with the reply's token and user, and is routed to the admin dashboard iff the role is Admin, else to products; a failure always carries a message |
| LoginPage.Page.constructor | frontend/src/components/Login.js:50-57 | empty form, no errors, not loading, nobody signed in |
| LoginPage.Page.HandleChange | frontend/src/components/Login.js:87-100 | only the named field changes; a non-empty error on it is cleared |
| LoginPage.Page.HandleSubmit | frontend/src/components/Login.js:102-160 | the form is posted iff valid, and loading starts then |
| LoginPage.Page.ReceiveAnswer | frontend/src/components/Login.js:116-156 | loading stops; failure shows the message; an inactive user gets the inactive toast and stays signed out; a signed-in user's token and role are stored and the route follows Decide |
| ListItemPage.LeadingDigits | frontend/src/components/ListItem.js:65 | the longest digit prefix, the part parseFloat reads |
| ListItemPage.NaturalPrice | frontend/src/components/ListItem.js:65 | a whole-number price parses to that number and is refused iff it is 0 |
| ListItemPage.NegativePrice | frontend/src/components/ListItem.js:65 | a negative price is refused |
| ListItemPage.LetterPrice | frontend/src/components/ListItem.js:65 | a price starting with a letter parses to NaN |
| ListItemPage.FormValidMeaning | frontend/src/components/ListItem.js:59-72 | the form is valid iff the name is not blank and has at most 50 characters, the description is not blank and has at most 250, the price parses to a positive number, and category, subcategory and image are chosen |
| ListItemPage.DescriptionErrors | frontend/src/components/ListItem.js:63-64 | sets the description's error by its rule and leaves every other field's entry alone |
| ListItemPage.Note | frontend/src/components/ListItem.js:61-68 | one field's check: its message is set when its rule fails, and no other field's entry changes |
| ListItemPage.FormErrors | frontend/src/components/ListItem.js:59-72 | each field's error is the one its rule gives; empty iff valid |
| ListItemPage.Page.constructor | frontend/src/components/ListItem.js:10-23 | empty form, no preview, no errors, not loading |
| ListItemPage.Page.HandleChange | frontend/src/components/ListItem.js:74-98 | only the named field changes; a new category clears the subcategory and asks for its subcategories; a non-empty error on the field is removed |
| ListItemPage.Page.ImageChosen | frontend/src/components/ListItem.js:77-85 | the chosen file becomes the image and its error is removed; with no file the image is emptied and the errors are kept, since reading the missing file throws first |
| ListItemPage.Page.PreviewLoaded | frontend/src/components/ListItem.js:77-85 | the preview becomes the file's data URL |
| ListItemPage.Page.RemoveImage | frontend/src/components/ListItem.js:100-103 | the image and its preview are cleared |
| ListItemPage.Page.HandleSubmit | frontend/src/components/ListItem.js:105-170 | a body is sent iff the form is valid and a token is stored, and it is the multipart body of the form; a valid form with no token shows the log-in toast and ends loading |
| ListItemPage.Page.ReceiveAnswer | frontend/src/components/ListItem.js:142-169 | loading stops; success shows the server's message (or the fallback) and resets form, preview and errors; a refusal or a network failure shows its message (or the fallback) and keeps the form |
| ListItemPage.ResetFormInvalid | frontend/src/components/ListItem.js:142-159 | the reset form is invalid and reports the name, description, price and image errors |
| CardPage.Set | frontend/src/components/Card.js:76-80 | only the named field takes the new value |
| CardPage.FormatInput | frontend/src/components/Card.js:62-81 | the number keeps at most 16 digits and has 16 iff 16 were typed; four typed expiry digits give `MM/YY` and formatting is stable; the holder is a prefix of at most 25 characters |
| CardPage.FormErrors | frontend/src/components/Card.js:83-111 | each error is the one its rule gives; the map is empty iff the number is exactly 16 digits, the expiry is accepted, and the trimmed holder has at least 3 characters |
| CardPage.Page.constructor | frontend/src/components/Card.js:13-30 | no saved card, an empty form, no errors |
| CardPage.Page.LoadCard | frontend/src/components/Card.js:35-60 | a saved card fills the form with its number, its date shown as `MM/YY` and its holder |
| CardPage.Page.HandleInputChange | frontend/src/components/Card.js:62-81 | the field takes its formatted value, the others keep theirs, and a non-empty error on it is blanked |
| CardPage.Page.ValidateForm | frontend/src/components/Card.js:83-111 | errors are FormErrors and the result is true iff the form is valid |
| CardPage.Page.HandleSubmit | frontend/src/components/Card.js:113-148 | a request is sent iff the form is valid; it is a PUT when a card is saved and a POST otherwise, and carries the number, the holder and the expiry as a stored date |
| CardPage.Page.SubmitRefused | frontend/src/components/Card.js:143-144 | the submit error shows the server's message |
| CardPage.Page.CardDeleted | frontend/src/components/Card.js:162-168 | the saved card is gone and the form is emptied |
| CardPage.SavedCardReloads | frontend/src/components/Card.js:120-121 | a valid form's expiry, stored and loaded again, shows the same `MM/YY` |
| CardPage.LoadedDateResent | frontend/src/components/Card.js:48-54 | a loaded date saved again unchanged reaches the server as the same date |
| PaymentPage.Set | frontend/src/components/Payment.js:114-118 | only the named field takes the new value |
| PaymentPage.FormatInput | frontend/src/components/Payment.js:93-119 | the number and expiry are formatted as on the card page; the CVV keeps at most 3 digits and has 3 iff 3 were typed; the holder is kept |
| PaymentPage.FormErrors | frontend/src/components/Payment.js:121-159 | with a saved card only the CVV is checked; with a new card the number without spaces must be 16 digits, the expiry accepted and the trimmed holder at least 3 characters, and the CVV is not checked; empty iff valid |
| PaymentPage.NewCardErrors | frontend/src/components/Payment.js:128-155 | the new-card branch reports exactly the new-card rules |
| PaymentPage.Payload | frontend/src/components/Payment.js:175-191 | the number sent is digits only, from the saved card or the form; the holder is the saved one or the trimmed typed one; expiry and CVV are sent as typed |
| PaymentPage.Classify | frontend/src/components/Payment.js:204-218 | a refusal whose message contains "sold out" (any case) is SoldOut; an OK reply with status Success is Paid; any other failure carries the server's message when it has one |
| PaymentPage.Page.constructor | frontend/src/components/Payment.js:13-26 | loading, empty details and errors, no saved card, not paid |
| PaymentPage.Page.FetchOrderDetails | frontend/src/components/Payment.js:29-91 | without an order id nothing is fetched and an error is shown; with an order id but no stored token nothing is fetched and the page goes to the login page; a fetch error is shown as is; a saved card pre-fills number, expiry as `MM/YY` and holder with an empty CVV and selects it; loading stops |
| PaymentPage.Page.SetUseExistingCard | frontend/src/components/Payment.js:344-356 | the checkbox, shown only with a saved card, sets the use-saved-card flag to its state and keeps the page valid |
| PaymentPage.Page.HandleInputChange | frontend/src/components/Payment.js:93-119 | the field takes its formatted value and a non-empty error on it is blanked |
| PaymentPage.Page.ValidateForm | frontend/src/components/Payment.js:121-159 | errors are FormErrors and the result is true iff the form is valid |
| PaymentPage.Page.HandleSubmit | frontend/src/components/Payment.js:161-228 | a request is sent iff the form is valid and a token is stored, and it is the Payload; a valid form without a token clears the errors and goes to the login page |
| PaymentPage.Page.ReceiveAnswer | frontend/src/components/Payment.js:204-224 | paid iff Classify says Paid; sold out shows the sold-out message; other failures show the server's message |
| PaymentPage.NewCardAcceptedByServer | backend/server.js:848-899 | a new card that passes the page's checks, with a three-digit CVV, passes the server's validateCardDetails |
| PaymentPage.NewCardWithoutCvvRefused | frontend/src/components/Payment.js:128-155 | the page accepts a new card with an empty CVV, and the server refuses it |
| PaymentPage.ExpiredSavedCardRefused | frontend/src/components/Payment.js:124-127 | the page accepts a saved card whatever its expiry, and the server refuses an expired one |
| PaymentPage.PaymentAnswer | backend/server.js:742-845 | the page sees an OK answer iff the server replied 200, with the server's message |
| PaymentPage.SuccessReplyIsPaid | backend/server.js:833 | the server's 200 reply makes the page show the payment as done |
| PaymentPage.SoldOutReplyIsSoldOut | backend/server.js:766-777 | the server's "Item is sold out" reply makes the page show the sold-out message |
| PaymentPage.OtherRefusalIsFailure | frontend/src/components/Payment.js:212-224 | any other refusal with a message shows that message |
| AdminPurchasePage.VisibleMeaning | frontend/src/components/AdminPurchase.js:97-188 | the shown rows are a permutation of the rows passing search and status, each passing row as often as it occurs, sorted by the chosen field and direction |
| AdminPurchasePage.OtherFieldsSortByDate | frontend/src/components/AdminPurchase.js:149-180 | a field with no comparator case, product name included, sorts by date |
| AdminPurchasePage.WithStatus | frontend/src/components/AdminPurchase.js:307-316 | rows of the updated purchase take the new status; the others stay |
| AdminPurchasePage.WithStatusOnlyTargets | frontend/src/components/AdminPurchase.js:307-316 | only target rows change, they change only their status, and updating twice is updating once |
| AdminPurchasePage.StatusClass | frontend/src/components/AdminPurchase.js:405-414 | Success is shown as completed, Failed as cancelled, anything else unstyled |
| AdminPurchasePage.Page.constructor | frontend/src/components/AdminPurchase.js:33-40 | no rows, no search, all statuses, sorted by date descending |
| AdminPurchasePage.Page.ApplyFilters | frontend/src/components/AdminPurchase.js:97-188 | the shown rows become the visible rows of the current state |
| AdminPurchasePage.Page.Loaded | frontend/src/components/AdminPurchase.js:52-95 | the rows are the fetched data and the shown rows match them |
| AdminPurchasePage.Page.SetSearchTerm | frontend/src/components/AdminPurchase.js:190-192 | a new search term refilters |
| AdminPurchasePage.Page.SetStatusFilter | frontend/src/components/AdminPurchase.js:190-192 | a new status filter refilters |
| AdminPurchasePage.Page.HandleSort | frontend/src/components/AdminPurchase.js:248-255 | clicking the current field flips the direction; a new field starts descending |
| AdminPurchasePage.Page.UpdateStatus | frontend/src/components/AdminPurchase.js:291-326 | the rows are WithStatus; an open detail view of that purchase shows the new status |
| AdminFeedbackPage.VisibleMeaning | frontend/src/components/AdminFeedback.js:78-124 | the shown rows are a permutation of the rows passing search and rating, sorted by the chosen field |
| AdminFeedbackPage.OtherFieldsSortByDate | frontend/src/components/AdminFeedback.js:95-121 | any field but rating and user name sorts by date |
| AdminFeedbackPage.TruncateComment | frontend/src/components/AdminFeedback.js:212-215 | a comment within the limit is kept; a longer one is its first characters up to the limit plus "..." |
| AdminFeedbackPage.StarRow | frontend/src/components/AdminFeedback.js:198-210 | five stars, the i-th filled iff i is at most the rating |
| AdminFeedbackPage.StarRowCount | frontend/src/components/AdminFeedback.js:198-210 | the number of filled stars is the rating clamped to 0-5, and filled stars come first |
| AdminFeedbackPage.Page.constructor | frontend/src/components/AdminFeedback.js:32-37 | no rows, no search, all ratings, sorted by date descending |
| AdminFeedbackPage.Page.ApplyFilters | frontend/src/components/AdminFeedback.js:78-124 | the shown rows become the visible rows |
| AdminFeedbackPage.Page.Loaded | frontend/src/components/AdminFeedback.js:45-76 | the rows are the fetched data and the shown rows match them |
| AdminFeedbackPage.Page.SetSearchTerm | frontend/src/components/AdminFeedback.js:78-124 | a new search term refilters |
| AdminFeedbackPage.Page.SetRatingFilter | frontend/src/components/AdminFeedback.js:91-93 | a new rating filter refilters |
| AdminFeedbackPage.Page.HandleSort | frontend/src/components/AdminFeedback.js:184-191 | clicking the current field flips the direction; a new field starts descending |
| AdminItemsPage.VisibleMeaning | frontend/src/components/AdminItems.js:248-264 | an item is shown iff it matches the search (by name or by id) and the category; the list is sorted by the chosen field; an empty search matches every item |
| AdminItemsPage.FindCategory | frontend/src/components/AdminItems.js:83-86 | the first category with that id, or none when no category has it |
| AdminItemsPage.CategoryNameMeaning | frontend/src/components/AdminItems.js:83-86 | the category's name when found, "N/A" otherwise |
| AdminItemsPage.Availability | frontend/src/components/AdminItems.js:213 | "Sold Out" iff purchased, "Available" otherwise |
| AdminItemsPage.Page.constructor | frontend/src/components/AdminItems.js:31-39 | no items, search by name, all categories, sorted by name ascending |
| AdminItemsPage.Page.HandleSort | frontend/src/components/AdminItems.js:154-161 | clicking the current field flips the direction; a new field starts ascending |
| AdminItemsPage.Page.ItemDeleted | frontend/src/components/AdminItems.js:163-179 | exactly the items with the deleted id disappear |
| UsersPage.VisibleMeaning | frontend/src/components/Users.js:166-181 | the shown users are a permutation of those matching search, role and status, sorted by the chosen field |
| UsersPage.NextStatus | frontend/src/components/Users.js:79 | Active becomes Inactive; anything else becomes Active |
| UsersPage.ToggleTwice | frontend/src/components/Users.js:79 | toggling a valid status twice gives it back |
| UsersPage.WithStatus | frontend/src/components/Users.js:91 | only the user with that id takes the new status |
| UsersPage.ExportMeaning | frontend/src/components/Users.js:214-224 | the export has one row per non-admin user, and every row comes from one |
| UsersPage.Actions | frontend/src/components/Users.js:431-441 | admins get only "Show more"; others also get Deactivate when active or Activate otherwise |
| UsersPage.Page.constructor | frontend/src/components/Users.js:30-36 | no users, search by username, all roles and statuses, sorted by username ascending |
| UsersPage.Page.HandleSort | frontend/src/components/Users.js:157-164 | clicking the current field flips the direction; a new field starts ascending |
| UsersPage.Page.HandleStatusToggle | frontend/src/components/Users.js:77-95 | the status sent is NextStatus; on success only that user changes |
| ProductsPage.UnsoldMeaning | frontend/src/components/Products.js:58 | the listing keeps exactly the items not marked sold, and all of them when none is |
| ProductsPage.SellerCities | frontend/src/components/Products.js:62-65 | a city is listed iff some item's seller has it and it is not empty |
| ProductsPage.Distinct | frontend/src/components/Products.js:62-65 | each city appears once iff it appeared at all |
| ProductsPage.CitiesMeaning | frontend/src/components/Products.js:62-65 | the city list holds exactly the non-empty seller cities, without repeats, in increasing order |
| ProductsPage.FilteredItemsMeaning | frontend/src/components/Products.js:166-184 | an item is shown iff it passes name search, category, subcategory, city and the inclusive price range; cleared filters show everything |
| ProductsPage.EmptyPriceRange | frontend/src/components/Products.js:166-184 | a minimum above the maximum shows nothing |
| ProductsPage.Toggled | frontend/src/components/Products.js:151-159 | the item is in the wishlist iff it was not removed; the others stay |
| ProductsPage.ToggleBack | frontend/src/components/Products.js:151-159 | adding then removing an item restores a wishlist that lacked it |
| ProductsPage.Page.constructor | frontend/src/components/Products.js:11-35 | cleared filters and loading; with no stored token the page goes to /login |
| ProductsPage.Page.Loaded | frontend/src/components/Products.js:38-91 | the items are the unsold ones, the cities are derived from them, and a fetched wishlist replaces the old one |
| ProductsPage.Page.LoadFailed | frontend/src/components/Products.js:87 | the error message carries the failure's details; loading stops |
| ProductsPage.Page.SetSearchTerm | frontend/src/components/Products.js:166-184 | only the search term changes |
| ProductsPage.Page.SetCategory | frontend/src/components/Products.js:234-237 | the category is set and the subcategory cleared; clearing the category empties the subcategory list |
| ProductsPage.Page.SubcategoriesLoaded | frontend/src/components/Products.js:98-121 | the subcategory list is the fetched one |
| ProductsPage.Page.SetSubcategory | frontend/src/components/Products.js:166-184 | only the subcategory changes |
| ProductsPage.Page.SetCity | frontend/src/components/Products.js:166-184 | only the city changes |
| ProductsPage.Page.SetPriceRange | frontend/src/components/Products.js:285-292 | only the price bounds change |
| ProductsPage.Page.ResetFilters | frontend/src/components/Products.js:298-304 | every filter but the search term is cleared |
| ProductsPage.Page.HandleWishlistToggle | frontend/src/components/Products.js:123-163 | without a token the user is told to log in and nothing else changes; a 403 drops the token and goes to /login; a toggle applies Toggled and keeps the token, route and alert; any other answer changes nothing |
| AdminCategoriesPage.Unloaded | frontend/src/components/AdminCategories.js:56-70 | fetched categories start with no subcategory list loaded |
| AdminCategoriesPage.WithList | frontend/src/components/AdminCategories.js:84-88 | only categories with that id take the new list |
| AdminCategoriesPage.Renamed | frontend/src/components/AdminCategories.js:219-224 | only categories with that id take the new name |
| AdminCategoriesPage.SubRenamed | frontend/src/components/AdminCategories.js:248-258 | the category list keeps its length |
| AdminCategoriesPage.SubRenamedMeaning | frontend/src/components/AdminCategories.js:248-258 | categories keep id, name and whether a list is loaded; a subcategory is renamed iff its id matches |
| AdminCategoriesPage.HasSubcategoriesMeaning | frontend/src/components/AdminCategories.js:320-322 | no freshly fetched category shows subcategories, since none has a list loaded |
| AdminCategoriesPage.FindCategory | frontend/src/components/AdminCategories.js:305-318 | the first category with that id, or none |
| AdminCategoriesPage.FindHolder | frontend/src/components/AdminCategories.js:291-298 | the first category whose loaded list holds the subcategory, or none |
| AdminCategoriesPage.CacheRules | frontend/src/components/AdminCategories.js:305-318 | expanding a present, collapsed category fetches once its list is dropped, does not fetch once loaded, and an expanded category never fetches |
| AdminCategoriesPage.ToggleTwice | frontend/src/components/AdminCategories.js:305-318 | toggling flips the expansion, and toggling twice restores it |
| AdminCategoriesPage.Page.constructor | frontend/src/components/AdminCategories.js:30-36 | no categories, nothing expanded or loading, empty inputs |
| AdminCategoriesPage.Page.CategoriesLoaded | frontend/src/components/AdminCategories.js:56-70 | the categories are the fetched rows with no lists loaded |
| AdminCategoriesPage.Page.SubcategoriesRequested | frontend/src/components/AdminCategories.js:74 | the category is marked loading |
| AdminCategoriesPage.Page.SubcategoriesArrived | frontend/src/components/AdminCategories.js:84-92 | a fetched list is stored with WithList; loading ends either way |
| AdminCategoriesPage.Page.ToggleExpansion | frontend/src/components/AdminCategories.js:305-318 | the expansion flips and a fetch is asked iff NeedsFetch held before |
| AdminCategoriesPage.Page.HandleAddCategory | frontend/src/components/AdminCategories.js:150-171 | a blank name alerts and sends nothing; otherwise it is sent and the input cleared on success |
| AdminCategoriesPage.Page.HandleAddSubcategory | frontend/src/components/AdminCategories.js:173-199 | a blank name or no category alerts and changes nothing else; a sent request keeps the alert; on success the category's list is dropped and the inputs cleared, otherwise the inputs stay |
| AdminCategoriesPage.Page.HandleEditCategory | frontend/src/components/AdminCategories.js:201-228 | a blank name alerts and keeps the categories and the edit state; a sent edit keeps the alert; on success the category is Renamed and editing ends, otherwise both stay |
| AdminCategoriesPage.Page.HandleEditSubcategory | frontend/src/components/AdminCategories.js:230-262 | a blank name alerts and keeps the categories and the edit state; a sent edit keeps the alert; on success the subcategory is SubRenamed and editing ends, otherwise both stay |
| AdminCategoriesPage.Page.SubcategoryDeleted | frontend/src/components/AdminCategories.js:281-303 | the list of the first category holding the subcategory is dropped; nothing changes when none holds it |
| Sorting.Compare | frontend/src/components/AdminItems.js:259-264 | the comparator is 0 iff neither key is less, negative iff the first comes first in the chosen direction |
| Sorting.SortBy | frontend/src/components/AdminItems.js:259-264 | the sorted list is a permutation of the input, ordered by the key in the chosen direction |
| Sorting.Filter | frontend/src/components/AdminItems.js:249-258 | each element is kept as often as it occurs when it passes, and dropped otherwise |
| Sorting.Click | frontend/src/components/AdminItems.js:154-161 | the clicked field becomes the sort field; the same field flips the direction and a new one starts at the page's initial direction |
| Sorting.ClickTwiceRestores | frontend/src/components/AdminItems.js:154-161 | clicking the current field twice restores the sort |
| Sorting.ClickNewThenSame | frontend/src/components/AdminItems.js:154-161 | clicking a new field twice sorts it in the opposite of the initial direction |
| Strings.TrimEmptyIff | frontend/src/components/Signup.js:96 | a string trims to empty iff it is all white space |

## Left out

- Password hashing and JWT signing are left out: a token is an opaque string, and the login and JWT verification routes are not modelled beyond the `Bearer` header split.
- File uploads are left out. An upload is a file name or nothing, and the preview is the data URL handed in. The reading by FileReader and the multer storage are not modelled.
- The clock is a parameter: the current year and month are passed in. The purchase page's date windows (today, this week, this month) are left out.
- PDF and CSV export layout and fonts are left out. Only the rows of the users export are modelled.
- Dashboard metrics are left out.
- Concurrency is left out. The order of overlapping asynchronous requests is not modelled: each answer is received as one step.
- Navigation timers are left out, and so are logout, the modals and UI-only state such as open filter panels.
- Text is a sequence of UTF-16 code units. Lowercasing covers ASCII only, and collation is the code-unit order, not the locale's.
- ListItemPage.ParseFloat: a sign, `Infinity`, whole digits and one fraction are read. An exponent is not, so underflow such as "1e-400" reading as 0 is not modelled.
- ProductsPage.Page.SetPriceRange: the bounds are whole numbers, and select inputs are modelled as ids.
- Marketplace.Store.Signup: e-mails and usernames are compared exactly, while MySQL's collation compares them case-insensitively.
- Marketplace.Store.AddItem: prices and amounts are whole numbers throughout the model, while the listing form accepts decimal prices such as "10.50"; the filter and order facts proved do not depend on it.
- Marketplace.Store.Pay: only one cause of the handler's catch-all 500 is modelled, the conditional sold update touching no row. Database errors, a failed foreign key and a body without `cardDetails` also answer 500 there, and so do the same faults in the other routes; the model has no such failures.
- AdminPurchasePage.VisibleMeaning: amounts are compared as numbers. The database driver may hand a DECIMAL price over as text, and the page would then compare the text.
- AdminItemsPage.VisibleMeaning: prices are compared as numbers, with the same caveat about the driver's text.
- CardRules.StoredDateRoundTrip: the stored expiry is taken as its `YYYY-MM-DD` text. The driver turns a DATE column into a date that JSON sends as a UTC timestamp, so east of UTC the month shown can be the previous one; that shift is not modelled.
- CardPage.Page.LoadCard: the loaded expiry is the `YYYY-MM-DD` text, without the UTC shift above.
- CardPage.LoadedDateResent: the round trip holds for the `YYYY-MM-DD` text, not for the UTC timestamp the server sends.
- PaymentPage.Page.FetchOrderDetails: the saved card's expiry is the `YYYY-MM-DD` text, without the UTC shift above.
- Marketplace.Store.Pay keeps the sold invariant only when it already held. An admin override (OverridePaymentStatus) can break it; OverrideCanBreakSoldInvariant shows how.
- The sort's stability is not stated: Sorting.SortBy promises a permutation in order, not that equal keys keep their input order. Sorting is on values, not in place.
- The admin category deletion only re-fetches, so it is covered by CategoriesLoaded. The confirmation dialog is modelled by calling SubcategoryDeleted only after a confirmed, successful delete.
- The refetches that follow an add, an edit or a status update are modelled as separate load calls.
- The sign-up page's handling of the server's answer is left out, because it only shows a toast and navigates. The products page's retry button is left out too.
- The users export's "Joined" column is left out because it is a date formatted by the locale.
