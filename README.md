# fieldeaze screen logic in Dafny

fieldeaze is a React Native app for booking home services. Most of its
screens are layout. Under the layout sit small pieces of deterministic logic,
and this project models those pieces and proves what they promise:

- the chat assistant (`ChatScreen`):
  - the flattened FAQ pool;
  - the first-match reply rules over the lower-cased message;
  - the append-only message list that `sendMessage` grows;
- the bookmark store that doubles as the cart (`BookmarkContext`), and its
  use as a toggle on the service details screen;
- the cart's per-item quantities and subtotal (`CartScreen`), with the price
  parsing shared by the cart and the checkout (`Prices`);
- the saved payment cards (`PaymentMethodsScreen`): set default and remove;
- the home screen's lists (`HomeScreen`):
  - the booking tab filter;
  - the service search and its recommendation dropdown;
  - the split of the services into the first eight and the rest, with the
    rest padded to rows of four;
  - the offer star colour;
- the checkout (`CheckoutScreen`):
  - subtotal, SAVE10 discount and total;
  - coupon normalisation;
  - the delivery→payment step;
  - the chosen address and payment option;
- the registration and login forms (`RegisterScreen`, `LoginScreen`);
- the add-address form (`AddAddressScreen`):
  - the mapping from reverse-geocoding components to address fields;
  - the field setters and the type selector;
  - the save check;
- the theme provider (`ThemeContext`) and the help center's accordion and
  contact icons (`HelpCenterScreen`).

Each Dafny module follows one source file. Two kinds of code are modelled
differently:

- State that a screen updates in place is a `class`. Its fields are the
  screen's state and its methods are the handlers, each specified by
  `ensures` clauses over the old and new state.
- Pure computations (the reply rules, filters, maps and reductions) are
  functions, with lemmas that state their properties.

JavaScript's helpers for strings are modelled once, in `JsText`, with case
mapping on ASCII letters only. These are `toLowerCase`, `toUpperCase`, `trim`, `includes`, a `\b(...)\b`
word test and `join`. A price such as "₹1,299" is read as in the source, with
`parseFloat(price.replace(/[^\d.]/g, '') || '0')`. The result is an
`Option<real>`, where `None` plays the part of NaN.

The catalog (`mockData.json`) is not part of this model. Every operation that
reads it takes a `Catalog` value as an input.

The code, not a prose description of the chat, decides the model. The code
has no numbered service selection, no multi-select of categories and no
name/phone/address slot filling, so none of these appear here. The only
booking ending is the check on the previous bot message. The "service" reply
lists the names without numbers. A message containing "more faq" gets the
first three FAQs, because the `faq` rule is tried first. It never gets "No
more FAQs." (`ChatScreen.MoreFaqsUnreachable`).

## Model

| member | source | states |
|---|---|---|
| JsText.ToLowerIdempotent | src/screens/ChatScreen.tsx:50 | lower-casing twice is lower-casing once |
| JsText.TrimEmptyIffBlank | src/screens/ChatScreen.tsx:123 | `trim()` is empty exactly when every character is whitespace |
| JsText.TrimIsTrimmed | src/screens/CheckoutScreen.tsx:126 | the result of `trim()` starts and ends with a non-space, or is empty |
| JsText.TrimIdempotent | src/screens/CheckoutScreen.tsx:126 | trimming twice is trimming once |
| JsText.ContainsIff | src/screens/ChatScreen.tsx:56 | `includes(sub)` holds exactly when `sub` occurs at some index |
| JsText.ContainsTransitive | src/screens/ChatScreen.tsx:69-76 | containment is transitive |
| JsText.MatchesWordsIff | src/screens/ChatScreen.tsx:52 | the `\b(w1\|w2\|...)\b` test holds exactly when one of the words occurs with a word boundary on both sides |
| MockData.DetailsFor | src/screens/ChatScreen.tsx:82-83 | `serviceDetails[id]` is absent exactly when no property has that key, and is otherwise the value of the first property with that key |
| Prices.StripPrice | src/screens/CartScreen.tsx:56 | `replace(/[^\d.]/g, '')` keeps only digits and dots and never lengthens the text |
| Prices.StripPriceIdempotent | src/screens/CartScreen.tsx:56 | stripping twice is stripping once |
| Prices.ParseDigitsAndDots | src/screens/CartScreen.tsx:56 | `parseFloat` on digits and dots is never negative, and is NaN exactly for an empty text or one that starts with a dot not followed by a digit |
| Prices.PriceValue | src/screens/CartScreen.tsx:56 | a price reads as a non-negative number, and as NaN exactly when its digits and dots start with a lone dot |
| Prices.DecimalValue | src/screens/CartScreen.tsx:56 | the number that whole digits, a dot and fraction digits spell is at least the whole part, and is exactly the whole part when there are no fraction digits |
| Prices.ParseDecimal | src/screens/CartScreen.tsx:56 | `parseFloat(a + "." + b)` for digit strings `a` and `b` is the value of `a` plus the value of `b` over 10 to the power of its length, and NaN only for "." alone |
| Prices.SecondDotEndsNumber | src/screens/CartScreen.tsx:56 | `parseFloat` stops at a second dot: `a.b.c` reads as `a.b` |
| Prices.PriceOfDecimalAmount | src/screens/CartScreen.tsx:56 | a currency sign followed by `a.b` reads as the decimal number `a.b` |
| Prices.PriceWithoutDigitsIsZero | src/screens/CartScreen.tsx:56 | a price without digits or dots reads as 0 through the `\|\| '0'` fallback |
| Prices.PriceOfWholeAmount | src/screens/CartScreen.tsx:56 | a currency sign followed by digits reads as the value of the digits |
| ChatScreen.AllFaqsLength | src/screens/ChatScreen.tsx:12-25 | the pool holds the global FAQs and every service FAQ, so its length is the sum of their counts |
| ChatScreen.AllFaqsOrder | src/screens/ChatScreen.tsx:12-25 | the global FAQs come first, in order; then the i-th FAQ of the k-th service, as `question \|\| q` / `answer \|\| a` tagged with the service name, at a fixed position after all FAQs of earlier services |
| ChatScreen.GetAllFaqs | src/screens/ChatScreen.tsx:12-25 | the `concat` and the nested `forEach`/`push` loops build exactly the specified pool |
| ChatScreen.FindService | src/screens/ChatScreen.tsx:78-81 | the lookup finds nothing exactly when no service name matches in either direction; otherwise it returns the first matching service |
| ChatScreen.ReplyIgnoresCase | src/screens/ChatScreen.tsx:49-50 | the reply depends on the message only through its lower-cased form |
| ChatScreen.GreetingComesFirst | src/screens/ChatScreen.tsx:52-59 | "hello service" is greeted and not shown the services: the first rule that matches wins |
| ChatScreen.MoreFaqsUnreachable | src/screens/ChatScreen.tsx:69-76 | no text ever reaches the `more faq` rule |
| ChatScreen.MoreFaqsRepeatsFaqs | src/screens/ChatScreen.tsx:69-76 | the "More FAQs" quick reply and "FAQs" are both answered by the `faq` rule |
| ChatScreen.FaqRuleWhen | src/screens/ChatScreen.tsx:52-72 | a text that is no greeting, contains no "service", "offer" or "discount", and contains "faq" or "question" gets the FAQ answer |
| ChatScreen.FaqReply | src/screens/ChatScreen.tsx:69-71 | the FAQ answer shows the first min(3, n) FAQs of the pool and offers exactly the quick reply "More FAQs" |
| ChatScreen.ServiceListReply | src/screens/ChatScreen.tsx:56-58 | the `service` answer lists every service name, and offers the first min(4, n) names as quick replies, in catalog order |
| ChatScreen.ServiceInfoIsFirstMatch | src/screens/ChatScreen.tsx:56-92 | the service-details answer only comes for a text without "service" or "faq", and belongs to the first catalog service whose name matches in either direction, whose details must exist |
| ChatScreen.BookNowShadowsBook | src/screens/ChatScreen.tsx:94-104 | every text that passes the `book now` test also passes the later `book` test, so only the order of the rules separates them |
| ChatScreen.AddressChoiceBooks | src/screens/ChatScreen.tsx:94-148 | after the `book now` answer, sending any of its quick replies gets "Your service has been booked!" |
| ChatScreen.ChatSession.constructor | src/screens/ChatScreen.tsx:35-38 | the chat opens with the welcome message and its three quick replies, and an empty text box |
| ChatScreen.ChatSession.SetInput | src/screens/ChatScreen.tsx:38 | typing sets the text box |
| ChatScreen.ChatSession.SendMessage | src/screens/ChatScreen.tsx:122-155 | blank text and "Call Support" leave the list as it is (the latter dials support); any other text appends the user message and then exactly one bot message: "booked" after the address prompt, the rule reply otherwise; the box is cleared and the id counter moves on by two; when nothing is appended the counter is unchanged |
| BookmarkContext.AddBookmarkCases | src/context/BookmarkContext.tsx:28-32 | adding a package whose id is present leaves the list as it is; a new id is appended at the end and nothing else changes |
| BookmarkContext.AddBookmarkKeepsUnique | src/context/BookmarkContext.tsx:29-31 | adding keeps ids unique |
| BookmarkContext.AddBookmarkIdempotent | src/context/BookmarkContext.tsx:29-31 | adding twice is adding once |
| BookmarkContext.WithoutIdMembers | src/context/BookmarkContext.tsx:34-36 | removal keeps exactly the entries with another id and drops one entry per occurrence of the id |
| BookmarkContext.RemoveBookmarkRemovesId | src/context/BookmarkContext.tsx:34-36 | after removal no entry has the id |
| BookmarkContext.WithoutIdAppend | src/context/BookmarkContext.tsx:35 | removal keeps relative order: removing from a concatenation removes from each part in place |
| BookmarkContext.WithoutAbsentId | src/context/BookmarkContext.tsx:35 | removing an id no entry has changes nothing |
| BookmarkContext.RemoveBookmarkIdempotent | src/context/BookmarkContext.tsx:35 | removing twice is removing once |
| BookmarkContext.RemovePresentShortens | src/context/BookmarkContext.tsx:35 | with unique ids, removing a present id drops exactly one entry |
| BookmarkContext.CountOfPresentId | src/context/BookmarkContext.tsx:29-31 | with unique ids an id occurs once if present and not at all otherwise |
| BookmarkContext.RemoveBookmarkKeepsUnique | src/context/BookmarkContext.tsx:35 | removal keeps ids unique |
| BookmarkContext.AddThenRemoveRestores | src/context/BookmarkContext.tsx:28-36 | adding a package with a new id and removing that id gives back the original list |
| BookmarkContext.ToggleTwiceRestores | src/screens/ServiceDetailsScreen.tsx:205-220 | pressing the heart twice on a package not yet bookmarked gives back the original list |
| BookmarkContext.BookmarkStore.constructor | src/context/BookmarkContext.tsx:26 | the store starts empty |
| BookmarkContext.BookmarkStore.AddBookmark | src/context/BookmarkContext.tsx:28-32 | `addBookmark`: unchanged list for a present id, append otherwise; ids stay unique and the id is then present |
| BookmarkContext.BookmarkStore.RemoveBookmark | src/context/BookmarkContext.tsx:34-36 | `removeBookmark`: the filtered list; the id is gone, the others are kept, one entry fewer when the id was present, no change when it was absent |
| BookmarkContext.BookmarkStore.Toggle | src/screens/ServiceDetailsScreen.tsx:193-220 | the heart removes a bookmarked package and adds one that is not, so whether the id is bookmarked flips |
| CartScreen.NewQuantity | src/screens/CartScreen.tsx:48-53 | the new quantity is `max(1, (old \|\| 1) + delta)`: at least 1 and at least the sum, and equal to one of them |
| CartScreen.SubtotalNaNIff | src/screens/CartScreen.tsx:55-58 | the subtotal is NaN exactly when some item's price reads as NaN |
| CartScreen.SubtotalNonNegative | src/screens/CartScreen.tsx:55-58 | with every quantity at least 1, a numeric subtotal is not negative |
| CartScreen.SubtotalReadsCartQuantities | src/screens/CartScreen.tsx:55-58 | the subtotal reads the quantities only through the ids of the items in the cart, with a missing quantity counted as 1 |
| CartScreen.SubtotalAtOne | src/screens/CartScreen.tsx:55-58 | with every quantity at 1, the subtotal is the plain sum of the prices |
| CartScreen.CartQuantities.constructor | src/screens/CartScreen.tsx:12-16 | the initial map has exactly the cart ids as keys, each with quantity 1 |
| CartScreen.CartQuantities.Sync | src/screens/CartScreen.tsx:19-31 | after the effect the keys are exactly the cart ids; kept ids keep their quantity, new ids get 1; the subtotal does not change |
| CartScreen.CartQuantities.ChangeQuantity | src/screens/CartScreen.tsx:48-53 | only the entry for the id changes, to `max(1, (old \|\| 1) + delta)`, and no quantity drops below 1 |
| PaymentMethodsScreen.SetDefaultKeepsCards | src/screens/PaymentMethodsScreen.tsx:24-26 | set default keeps length, order and every field but `isDefault`, which becomes true exactly for the chosen id |
| PaymentMethodsScreen.SetDefaultLeavesOneDefault | src/screens/PaymentMethodsScreen.tsx:24-26 | with unique ids, exactly one default remains when the id is present and none when it is absent |
| PaymentMethodsScreen.SetDefaultIdempotent | src/screens/PaymentMethodsScreen.tsx:25 | setting the same default twice is setting it once |
| PaymentMethodsScreen.RemoveCardMembers | src/screens/PaymentMethodsScreen.tsx:20 | removal keeps exactly the cards with another id |
| PaymentMethodsScreen.RemoveCardAppend | src/screens/PaymentMethodsScreen.tsx:20 | removal keeps the other cards in order |
| PaymentMethodsScreen.RemoveAbsentCard | src/screens/PaymentMethodsScreen.tsx:20 | removing an id no card has changes nothing |
| PaymentMethodsScreen.RemoveCardDefaults | src/screens/PaymentMethodsScreen.tsx:20 | removal never adds a default, and removing the only default card leaves none: no other card becomes default |
| PaymentMethodsScreen.RemoveCardKeepsUnique | src/screens/PaymentMethodsScreen.tsx:20 | removal keeps ids unique |
| PaymentMethodsScreen.PaymentMethods.constructor | src/screens/PaymentMethodsScreen.tsx:7-13 | the screen starts with the two mock cards, of which one is default |
| PaymentMethodsScreen.PaymentMethods.SetDefault | src/screens/PaymentMethodsScreen.tsx:24-26 | `handleSetDefault`: exactly the cards with the id are default, one for a present id and none for an absent one |
| PaymentMethodsScreen.PaymentMethods.Remove | src/screens/PaymentMethodsScreen.tsx:17-22 | the confirmed removal filters the id out, keeps unique ids and at most one default, and changes nothing for an absent id |
| HomeScreen.GetStarColor | src/screens/HomeScreen.tsx:34-45 | green and yellow backgrounds get their own colour, and every other background gets dark blue |
| HomeScreen.TabSelection | src/screens/HomeScreen.tsx:67-78 | "all" and "ongoing" both show the ongoing bookings, each other tab its own list, and a tab outside `TABS` none |
| HomeScreen.SearchResultsMembers | src/screens/HomeScreen.tsx:88-90 | the results are exactly the services whose lower-cased name contains the lower-cased query |
| HomeScreen.SearchResultsAppend | src/screens/HomeScreen.tsx:88-90 | the results keep catalog order |
| HomeScreen.SearchIgnoresCase | src/screens/HomeScreen.tsx:88-90 | the search ignores the case of the query |
| HomeScreen.HomeSearch.constructor | src/screens/HomeScreen.tsx:62-64 | empty query, no recommendations, dropdown hidden |
| HomeScreen.HomeSearch.HandleSearch | src/screens/HomeScreen.tsx:81-93 | a blank query clears the recommendations and hides the dropdown; any other lists the matches in order, shown exactly when there are some |
| HomeScreen.HomeSearch.HandleRecommendationSelect | src/screens/HomeScreen.tsx:96-101 | the query becomes the service name and the dropdown is cleared and hidden |
| HomeScreen.HomeSearch.Focus | src/screens/HomeScreen.tsx:156-158 | focusing shows the dropdown again when there is a query and there are recommendations |
| HomeScreen.HomeSearch.Clear | src/screens/HomeScreen.tsx:165-169 | the clear button empties the query and the dropdown |
| HomeScreen.SplitServices | src/screens/HomeScreen.tsx:114-115 | the first eight and the rest make up the services, and the rest is non-empty only past eight |
| HomeScreen.PadRest | src/screens/HomeScreen.tsx:116-122 | the padded rest starts with the rest; when the rest is non-empty its length becomes the next multiple of 4, and each placeholder's id names its column; an empty rest gets no padding |
| CheckoutScreen.CheckoutIgnoresCartQuantities | src/screens/CheckoutScreen.tsx:31-37 | the checkout sums each item once (no cart item has a `qty`), whatever quantities the cart screen shows |
| CheckoutScreen.Discount | src/screens/CheckoutScreen.tsx:38 | under SAVE10 the discount is a tenth of the subtotal, and NaN exactly when the subtotal is; under any other coupon it is 0; for a non-zero subtotal it is a tenth exactly when the coupon is SAVE10 |
| CheckoutScreen.TotalBounds | src/screens/CheckoutScreen.tsx:38-39 | for a non-negative subtotal the total is nine tenths of it under SAVE10 and all of it otherwise, so never more than it |
| CheckoutScreen.BottomBarShowsSubtotal | src/screens/CheckoutScreen.tsx:192-193 | the bottom bar shows the subtotal, which differs from the total exactly when SAVE10 applies to a positive subtotal |
| CheckoutScreen.NormalizeCouponIdempotent | src/screens/CheckoutScreen.tsx:126 | applying an already applied coupon changes nothing |
| CheckoutScreen.SpacedLowerCaseCouponApplies | src/screens/CheckoutScreen.tsx:126 | a typed " save10 " applies as SAVE10 |
| CheckoutScreen.Checkout.constructor | src/screens/CheckoutScreen.tsx:24-30 | the screen opens at step 0 with "wallet", the first saved address or none, the list closed and no coupon |
| CheckoutScreen.Checkout.SetCoupon | src/screens/CheckoutScreen.tsx:121 | typing sets the coupon text |
| CheckoutScreen.Checkout.ApplyCoupon | src/screens/CheckoutScreen.tsx:126 | the applied coupon becomes the typed one trimmed and upper-cased |
| CheckoutScreen.Checkout.OpenAddressModal | src/screens/CheckoutScreen.tsx:66 | Change opens the address list |
| CheckoutScreen.Checkout.CloseAddressModal | src/screens/CheckoutScreen.tsx:70-91 | closing the list without choosing hides it |
| CheckoutScreen.Checkout.SelectAddress | src/screens/CheckoutScreen.tsx:80 | choosing an address selects it and closes the list |
| CheckoutScreen.Checkout.SelectPayment | src/screens/CheckoutScreen.tsx:156 | choosing a payment option selects it |
| CheckoutScreen.Checkout.PressBottomButton | src/screens/CheckoutScreen.tsx:194-200 | CONFIRM moves from step 0 to 1; PROCEED at step 1 only raises "Order Placed"; the step never goes back |
| RegisterScreen.Rejection | src/screens/RegisterScreen.tsx:47-61 | an empty field is reported first, then missing terms, then a password mismatch; the form passes exactly when all fields are filled, the terms are agreed and the passwords match |
| RegisterScreen.RegisterForm.constructor | src/screens/RegisterScreen.tsx:36-44 | empty fields, nothing shown, not loading, terms not agreed |
| RegisterScreen.RegisterForm.ToggleTerms | src/screens/RegisterScreen.tsx:191 | the checkbox flips the terms |
| RegisterScreen.RegisterForm.HandleRegister | src/screens/RegisterScreen.tsx:47-77 | `onRegister` is called exactly when no check rejects, with exactly the five entered values; a rejection raises its message; after a call `isLoading` is false and a throw raises "Registration failed" |
| LoginScreen.Rejection | src/screens/LoginScreen.tsx:35-39 | the form is rejected exactly when the email or the password is empty, and always with "Please fill in all fields" |
| LoginScreen.LoginForm.constructor | src/screens/LoginScreen.tsx:29-33 | empty fields, password hidden, not loading |
| LoginScreen.LoginForm.TogglePasswordVisibility | src/screens/LoginScreen.tsx:112 | the eye icon flips the password's visibility |
| LoginScreen.LoginForm.HandleLogin | src/screens/LoginScreen.tsx:35-49 | `onLogin` is called exactly when email and password are non-empty, with exactly those two (never the name); after a call `isLoading` is false and a throw raises "Login failed" |
| AddAddressScreen.NonEmpty | src/screens/AddAddressScreen.tsx:72 | `filter(Boolean)` keeps no empty part and keeps every non-empty part, each as many times as it occurs |
| AddAddressScreen.NonEmptyAppend | src/screens/AddAddressScreen.tsx:72 | `filter(Boolean)` distributes over concatenation, so the kept parts stay in their order |
| AddAddressScreen.StreetOf | src/screens/AddAddressScreen.tsx:72 | the street is road and house number joined by one space, in that order, with an empty part left out |
| AddAddressScreen.CityFallback | src/screens/AddAddressScreen.tsx:73 | the city falls back from city to town to village, and is empty only when all three are |
| AddAddressScreen.WithComponents | src/screens/AddAddressScreen.tsx:69-76 | the mapping sets street, city, state and pincode from the components and keeps the landmark and the type |
| AddAddressScreen.SaveRejection | src/screens/AddAddressScreen.tsx:171-181 | saving is rejected exactly when street, city or pincode is empty |
| AddAddressScreen.SaveIgnoresOptionalFields | src/screens/AddAddressScreen.tsx:173-176 | neither the state, the landmark nor the type decides whether the address can be saved |
| AddAddressScreen.NoComponentsCannotBeSaved | src/screens/AddAddressScreen.tsx:69-76 | an answer without an `address` object clears the located fields, so the address cannot be saved |
| AddAddressScreen.GeocodedAddressCanBeSaved | src/screens/AddAddressScreen.tsx:69-76 | components with a road, a city or town or village, and a postcode give an address that can be saved |
| AddAddressScreen.AddressForm.constructor | src/screens/AddAddressScreen.tsx:28-35 | the form starts empty with type home |
| AddAddressScreen.AddressForm.SetType | src/screens/AddAddressScreen.tsx:280-287 | a type button changes only the type |
| AddAddressScreen.AddressForm.SetStreet | src/screens/AddAddressScreen.tsx:303 | the street input changes only the street |
| AddAddressScreen.AddressForm.SetLandmark | src/screens/AddAddressScreen.tsx:310 | the landmark input changes only the landmark |
| AddAddressScreen.AddressForm.SetCity | src/screens/AddAddressScreen.tsx:318 | the city input changes only the city |
| AddAddressScreen.AddressForm.SetState | src/screens/AddAddressScreen.tsx:324 | the state input changes only the state |
| AddAddressScreen.AddressForm.SetPincode | src/screens/AddAddressScreen.tsx:332-334 | the PIN code input changes only the PIN code, and keeps at most six characters |
| AddAddressScreen.AddressForm.ApplyGeocode | src/screens/AddAddressScreen.tsx:69-76 | a successful lookup applies the mapping, with a missing `address` object read as empty |
| AddAddressScreen.AddressForm.HandleSaveAddress | src/screens/AddAddressScreen.tsx:171-181 | go back exactly when street, city and pincode are filled; otherwise raise "Please fill in all required fields" |
| ThemeContext.ModeName | src/context/ThemeContext.tsx:62-63 | the stored name is "light" exactly for light and "dark" exactly for dark |
| ThemeContext.ToggleInvolutive | src/context/ThemeContext.tsx:61-62 | toggling changes the mode, and toggling twice restores it |
| ThemeContext.InitialMode | src/context/ThemeContext.tsx:49-56 | a stored "dark" or "light" wins; anything else follows the system scheme, dark exactly when it is dark |
| ThemeContext.StoredModeRoundTrip | src/context/ThemeContext.tsx:49-63 | the name that toggling stores is loaded back as the same mode, whatever the system scheme |
| ThemeContext.ThemeProvider.constructor | src/context/ThemeContext.tsx:45 | the theme is light before loading |
| ThemeContext.ThemeProvider.Load | src/context/ThemeContext.tsx:47-58 | the load effect sets the mode that the stored value and the system scheme give |
| ThemeContext.ThemeProvider.ToggleTheme | src/context/ThemeContext.tsx:60-66 | the mode flips, and the new mode's name is stored |
| HelpCenterScreen.ContactIcon | src/screens/HelpCenterScreen.tsx:12-32 | a key outside the six known keys has no icon; the four social networks get the FontAwesome icon of their own name; the other two get fixed Material icons |
| HelpCenterScreen.Expanded | src/screens/HelpCenterScreen.tsx:40-43 | pressing the open card closes everything, and pressing any other card makes it the one open card |
| HelpCenterScreen.ExpandTwiceCloses | src/screens/HelpCenterScreen.tsx:42 | pressing a closed card twice leaves every card closed |
| HelpCenterScreen.HelpCenter.constructor | src/screens/HelpCenterScreen.tsx:35-37 | the contact tab is shown first, with nothing expanded |
| HelpCenterScreen.HelpCenter.HandleExpand | src/screens/HelpCenterScreen.tsx:40-43 | at most one card is open: the pressed one, unless it was already open |
| HelpCenterScreen.HelpCenter.SetActiveTab | src/screens/HelpCenterScreen.tsx:69-75 | a tab button selects its tab |

## Left out

- Case mapping is ASCII only. `toLowerCase` and `toUpperCase` change only the ASCII letters, so Unicode case mapping is not modelled. `trim` removes the same whitespace characters as JavaScript's `trim`, including the Unicode spaces. As in JavaScript, `\b` treats only `[A-Za-z0-9_]` as word characters.
- Optional catalog and package fields (`question`, `q`, `price` and so on) are "" when absent. Where the source tests them for truthiness (`f.question || f.q`, `details.faqs && details.faqs.length`), "" behaves as the absent field does. Where it puts them into a template literal, it is different: JavaScript prints "undefined" for an absent field, and the model prints "". This happens in three places:
  - `ChatScreen.FaqLine`: a global FAQ written with `question`/`answer` instead of `q`/`a` (src/screens/ChatScreen.tsx:13, 71 and 75).
  - `ChatScreen.PackLabel`: a pack without a `price` (src/screens/ChatScreen.tsx:86).
  - `ChatScreen.DetailText`: a first FAQ written with `q`/`a` instead of `question`/`answer` (src/screens/ChatScreen.tsx:89).
- The `serviceDetails` object is a sequence of key/value entries, and a sequence can repeat a key where a JavaScript object cannot. On such a catalog `MockData.DetailsFor` reads the first entry with the key, while `ChatScreen.AllFaqs` collects the FAQs of every entry. The model assumes a catalog whose keys are distinct, as a JSON object's are, but it does not state that as a predicate.
- The `serviceDetails` entries are in enumeration order. JavaScript's ordering of integer-like keys is not modelled.
- The offers reply joins each offer as its text. How an offer object is turned into text depends on catalog data that is not part of this model.
- The 600 ms "typing" delay in `sendMessage` is not modelled: the bot message is appended at once. Messages sent while a reply is pending are not modelled.
- Message ids come from a counter instead of `Date.now()`. The model proves only that ids increase.
- `Linking.openURL` and its failure alert are not modelled. "Call Support" returns the `tel:` URL to dial.
- Persistence is not modelled:
  - `AsyncStorage`: the theme's stored value is a field of `ThemeProvider`.
  - `Appearance.getColorScheme()`: it is an input of `Load`.
  - `src/utils/auth.ts` (`mockLogin`, `mockRegister`): `onLogin`/`onRegister` are external calls. Their only modelled effect is whether they throw.
- The Nominatim `fetch` calls, JSON parsing, geolocation, permissions, the Leaflet WebView and the address search are not modelled. `ApplyGeocode` starts from the parsed `address` object. An HTTP or parse failure leaves the form unchanged, so it has no model.
- Floating point is not modelled: prices are exact reals, `subtotal * 0.1` is a tenth of the subtotal, and `toFixed(1)` formatting is left out.
- `Alert` confirmations are not modelled; a confirmed "Remove" is the removal. Navigation calls (`navigate`, `goBack`) become returned flags, or are dropped where nothing depends on them.
- The register and login text inputs and the register screen's two eye toggles are not modelled as methods, because each only writes one field. The handlers read the fields directly.
- The theme palettes' colours, the icons' size and colour, and all `Dimensions`-based layout are left out.
- HelpCenterScreen's FAQ tab (a placeholder) and its search text (`search`, which nothing reads) are left out. The FAQ tab does not filter anything.
- The checkout's subtotal models the `qty` field, but carts are filled from the bookmark store, and its packages have no `qty`. So only the all-ones case is linked to the cart (`CheckoutIgnoresCartQuantities`).
- The booking list types (`bookings.*` entries) and the offer cards' other fields are generic or left out. Only the tab selection and the star colour are modelled.
