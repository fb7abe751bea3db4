# nexprev front end: session stores, guards, forms, lists and galleries in Dafny

nexprev is a cashback app with three kinds of account: customers, merchants and administrators.
Its React front end keeps almost all of its logic in small pieces. This project models those
pieces and proves what each one promises:

- **Session stores.** The customer, merchant and admin stores each hold the signed-in identity,
  a `loading` flag and the `localStorage` entry. They are classes whose `Restore`, `Login`,
  `Register` and `Logout` methods keep the stored entry equal to the identity in memory. The
  customer store also derives the referral code from the name and the year.
- **Route guards, route table and chrome rule** (`App.tsx`). These are pure decisions over the
  two stores' flags. The route table is a list of (pattern, guard) pairs, proved to guard
  exactly the customer and merchant paths.
- **Form validators and form state.** These cover offer creation, product creation, merchant
  registration, the customer registration submit checks and merchant profile editing. Each
  validator is specified field by field: the error for a field depends only on the form. A
  method builds the error map through the same successive assignments as the page and is
  proved equal to the specification. The form is valid exactly when no field has an error.
- **Lists.** The offers, products, customers, user search and transactions pages filter,
  classify and count records. Each filter is proved to keep an order-preserving subsequence
  holding exactly the matching records. The status filters are proved to partition it.
  `getInitials` is proved equal to an independent "first letter of every word" definition.
- **Galleries.** The banner carousel and the two detail-page galleries step an index forward
  and back with wrap-around. Each step is proved to stay in range and to be undone by the
  opposite step. A full turn of the timer returns to the start, and exactly one dot is
  highlighted.

JavaScript's `Number(...)` and `new Date(...)` are parameters of type
`string -> Option<real>` and `string -> Option<int>`, where `None` stands for `NaN` and
`Invalid Date`. Every comparison with `None` is false, as it is in JavaScript. The clock
(`now`, the year, the ISO timestamp) is passed in as well. `trim()` and `\s` use the ECMAScript
whitespace set. `toLowerCase`/`toUpperCase` are modelled on ASCII and Latin-1 letters.

Behaviour worth noting:

- The header and bottom navigation are shown exactly when a customer is signed in, whatever
  the path. They are not hidden by path.
- The route table has no `/admin/*` route and no `/merchant/profile` route, and the admin
  store is never mounted.
- A corrupt stored entry is not tolerated: the source's `JSON.parse` would throw. The stored
  entry is modelled as an `Option` of the identity, so a corrupt entry cannot arise.

## Model

| member | source | states |
|---|---|---|
| CustomerAuth.GenerateReferralCode | contexts/AuthContext.tsx:48-52 | the code is the name with whitespace removed, each character upper-cased, followed by the year's digits; it contains no whitespace |
| CustomerAuth.ReferralCodeUpperCase | contexts/AuthContext.tsx:48-52 | no lower-case ASCII or Latin-1 letter is left in the name part, and the rest is all digits |
| CustomerAuth.ReferralCodeIgnoresWhitespace | contexts/AuthContext.tsx:48-52 | whitespace inserted anywhere in the name does not change the code |
| CustomerAuth.ReferralCodeExample | contexts/AuthContext.tsx:48-52 | "João Silva" in 2025 gives "JOÃOSILVA2025" |
| CustomerAuth.NewUser | contexts/AuthContext.tsx:78-96 | the new user copies name, email and phone, has zero balances, carries the generated referral code, and its id is the clock's decimal rendering |
| CustomerAuth.DistinctClocksDistinctIds | contexts/AuthContext.tsx:82 | registrations at different clock readings get different ids |
| CustomerAuth.TypedReferralCodeIgnored | contexts/AuthContext.tsx:81-89 | the referral code typed into the form never changes the created user |
| CustomerAuth.AuthProvider.constructor | contexts/AuthContext.tsx:37-38 | a fresh store has no user and is loading |
| CustomerAuth.AuthProvider.Restore | contexts/AuthContext.tsx:40-46 | a saved entry becomes the user, otherwise the user is kept; loading ends either way |
| CustomerAuth.AuthProvider.Login | contexts/AuthContext.tsx:57-75 | succeeds iff the fixed credentials are typed; success installs the canned user in memory and storage; failure changes neither; loading ends |
| CustomerAuth.AuthProvider.Register | contexts/AuthContext.tsx:78-96 | always succeeds and installs `NewUser` in memory and storage |
| CustomerAuth.AuthProvider.Logout | contexts/AuthContext.tsx:99-102 | clears memory and storage whatever the state before, so two logouts equal one; loading untouched |
| CustomerAuth.Reload | contexts/AuthContext.tsx:40-46 | after any mirrored state, a fresh mount restores the same user |
| MerchantAuth.NewMerchant | contexts/MerchantAuthContext.tsx:69-92 | copies every typed field, is active, has no logo, and its id is "merchant_" followed by the clock's decimal rendering |
| MerchantAuth.DistinctClocksDistinctIds | contexts/MerchantAuthContext.tsx:73 | registrations at different clock readings get different ids |
| MerchantAuth.PasswordNotStored | contexts/MerchantAuthContext.tsx:72-86 | the typed password never reaches the created merchant |
| MerchantAuth.MerchantAuthProvider.constructor | contexts/MerchantAuthContext.tsx:28-29 | a fresh store has no merchant and is loading |
| MerchantAuth.MerchantAuthProvider.Restore | contexts/MerchantAuthContext.tsx:31-37 | a saved entry becomes the merchant; loading ends either way |
| MerchantAuth.MerchantAuthProvider.Login | contexts/MerchantAuthContext.tsx:43-66 | succeeds iff the fixed credentials are typed; the stored merchant's email differs from the typed one; failure changes nothing |
| MerchantAuth.MerchantAuthProvider.Register | contexts/MerchantAuthContext.tsx:69-92 | always succeeds, with no field checks, and installs `NewMerchant` in memory and storage |
| MerchantAuth.MerchantAuthProvider.Logout | contexts/MerchantAuthContext.tsx:95-98 | clears memory and storage, so it is idempotent |
| MerchantAuth.Reload | contexts/MerchantAuthContext.tsx:31-37 | a fresh mount after any mirrored state restores the same merchant |
| AdminAuth.AdminAuthProvider.constructor | contexts/AdminAuthContext.tsx:34-35 | a fresh store has no admin and is loading |
| AdminAuth.AdminAuthProvider.Restore | contexts/AdminAuthContext.tsx:37-43 | a saved admin is adopted; loading ends; the only-known-admins invariant is kept |
| AdminAuth.AdminAuthProvider.Login | contexts/AdminAuthContext.tsx:49-65 | succeeds iff the fixed credentials are typed and installs the super-admin; failure changes nothing |
| AdminAuth.AdminAuthProvider.Logout | contexts/AdminAuthContext.tsx:68-71 | clears memory and storage |
| AdminAuth.Session | contexts/AdminAuthContext.tsx:11-17 | with no register, any sequence of restores, logins and logouts in any order leaves nobody, the canned admin or the entry found at mount, both in memory and in storage |
| Routing.ProtectedRoute | App.tsx:31-42 | a spinner exactly while loading, otherwise the page iff authenticated, else a redirect to /login |
| Routing.MerchantProtectedRoute | App.tsx:44-56 | the same three outcomes over the merchant store, redirecting to /merchant/login |
| Routing.GuardOf | App.tsx:66-149 | a pattern has a guard iff it is in the table, and that guard is its table entry's |
| Routing.RouteGuards | App.tsx:68-148 | the four login/register routes are unguarded, the eight customer routes are customer-guarded, the seven merchant routes merchant-guarded |
| Routing.TablePatterns | App.tsx:66-149 | the table holds exactly those nineteen patterns, in order |
| Routing.NoAdminOrProfileRoute | App.tsx:66-149 | /merchant/profile, /admin/dashboard and /admin/login have no route |
| Routing.Resolve | App.tsx:66-149 | what a route pattern (such as `/offers/:id`) renders is its guard applied to its own store, or the page for an unguarded route |
| Routing.GuardsIndependent | App.tsx:44-56 | a merchant page ignores the customer store and a customer page ignores the merchant store |
| Routing.ShowChrome | App.tsx:64 | header and bottom nav are shown iff the customer is authenticated, whatever the path or merchant state |
| Routing.ContentPadding | App.tsx:65 | the content gets `pb-24` iff the customer is authenticated |
| Routing.PaddingMatchesChrome | App.tsx:64-65 | the padding is reserved exactly when the bottom nav is shown |
| Forms.ClearError | pages/MerchantOfferCreatePage.tsx:47-53 | only the edited field's existing error is set to "", no key is added, and the field shows no error |
| Forms.ClearErrorIdempotent | pages/MerchantOfferCreatePage.tsx:47-53 | clearing twice is clearing once |
| OfferCreate.OfferForm.With | pages/MerchantOfferCreatePage.tsx:40-46 | an edit sets the named field and leaves every other field |
| OfferCreate.CollectOfferErrors | pages/MerchantOfferCreatePage.tsx:56-92 | the successive assignments build exactly the per-field error map |
| OfferCreate.OfferValidIffNoFieldError | pages/MerchantOfferCreatePage.tsx:93-94 | the map is empty iff no field has an error |
| OfferCreate.BlankTextRejected | pages/MerchantOfferCreatePage.tsx:59-60 | a whitespace-only title or description gets its "required" error |
| OfferCreate.DiscountBounds | pages/MerchantOfferCreatePage.tsx:61-72 | a value at or below zero is rejected; a percentage above 100 is rejected; a positive amount has no upper bound |
| OfferCreate.OptionalAmounts | pages/MerchantOfferCreatePage.tsx:85-91 | minimum purchase and maximum discount are rejected only when non-empty and not a number |
| OfferCreate.UncheckedAndDates | pages/MerchantOfferCreatePage.tsx:74-83 | product and image are never checked; a start date is required; a valid form has both dates, with end after start when both parse |
| OfferCreate.OfferCreatePage.constructor | pages/MerchantOfferCreatePage.tsx:18-31 | the form starts empty with percentage type, no errors, not loading |
| OfferCreate.OfferCreatePage.HandleInputChange | pages/MerchantOfferCreatePage.tsx:40-54 | only the named field changes and only its error is cleared |
| OfferCreate.OfferCreatePage.ValidateForm | pages/MerchantOfferCreatePage.tsx:56-94 | stores the error map and returns true iff it is empty |
| OfferCreate.OfferCreatePage.HandleSubmit | pages/MerchantOfferCreatePage.tsx:97-112 | navigates to /merchant/offers iff no field has an error; an invalid form stops with loading untouched |
| ProductCreate.ProductForm.With | pages/MerchantProductCreatePage.tsx:41-46 | an edit sets the named field and leaves every other field |
| ProductCreate.CollectProductErrors | pages/MerchantProductCreatePage.tsx:57-71 | the successive assignments build exactly the per-field error map |
| ProductCreate.ProductValidIffNoFieldError | pages/MerchantProductCreatePage.tsx:72-73 | the map is empty iff no field has an error |
| ProductCreate.NumberRules | pages/MerchantProductCreatePage.tsx:62-70 | price passes iff present and a number above 0; stock passes iff present and a number at least 0, so `validateForm` accepts 0 and fractions; the image URL is never checked |
| ProductCreate.TextRules | pages/MerchantProductCreatePage.tsx:60-61 | name and description fail iff blank; category fails iff empty |
| ProductCreate.ProductCreatePage.constructor | pages/MerchantProductCreatePage.tsx:17-26 | the form starts empty with no errors, not loading |
| ProductCreate.ProductCreatePage.HandleInputChange | pages/MerchantProductCreatePage.tsx:41-55 | only the named field changes and only its error is cleared |
| ProductCreate.ProductCreatePage.ValidateForm | pages/MerchantProductCreatePage.tsx:57-73 | stores the error map and returns true iff it is empty |
| ProductCreate.ProductCreatePage.HandleSubmit | pages/MerchantProductCreatePage.tsx:76-91 | navigates to /merchant/products iff no field has an error |
| MerchantRegister.With | pages/MerchantRegisterPage.tsx:47-53 | an edit sets the named field and leaves every other field |
| MerchantRegister.EmailExamples | pages/MerchantRegisterPage.tsx:67-68 | "a@b" does not match the email pattern and "a@b.c" does |
| MerchantRegister.EmailPatternUnanchored | pages/MerchantRegisterPage.tsx:67-68 | text around a matching address still matches |
| MerchantRegister.EmailPatternShape | pages/MerchantRegisterPage.tsx:67-68 | a match contains '@' and '.' and has at least five characters |
| MerchantRegister.CollectRegisterErrors | pages/MerchantRegisterPage.tsx:63-76 | the successive assignments build exactly the per-field error map |
| MerchantRegister.RegisterValidIffNoFieldError | pages/MerchantRegisterPage.tsx:77-78 | the map is empty iff no field has an error |
| MerchantRegister.PasswordRules | pages/MerchantRegisterPage.tsx:70-71 | the password passes iff it is not blank and its untrimmed length is at least 6, so "  abcd" passes |
| MerchantRegister.PresenceOnly | pages/MerchantRegisterPage.tsx:66-75 | name, phone, business name, CNPJ and address fail iff blank; category fails iff empty; description never fails |
| MerchantRegister.EmailRule | pages/MerchantRegisterPage.tsx:67-68 | the email passes iff it is not blank and matches the pattern |
| MerchantRegister.MerchantRegisterPage.constructor | pages/MerchantRegisterPage.tsx:21-32 | the form starts empty with no errors |
| MerchantRegister.MerchantRegisterPage.HandleInputChange | pages/MerchantRegisterPage.tsx:47-61 | only the named field changes and only its error is cleared |
| MerchantRegister.MerchantRegisterPage.ValidateForm | pages/MerchantRegisterPage.tsx:63-78 | stores the error map and returns true iff it is empty |
| MerchantRegister.MerchantRegisterPage.HandleSubmit | pages/MerchantRegisterPage.tsx:81-90 | an invalid form never touches the store; a valid one registers the merchant and navigates to /merchant/dashboard |
| CustomerRegister.SubmitBlocker | pages/RegisterPage.tsx:27-35 | differing passwords give the mismatch error whatever their length; matching ones shorter than 6 give the length error; otherwise nothing blocks |
| CustomerRegister.BlockerIgnoresOtherFields | pages/RegisterPage.tsx:27-35 | only the two password fields decide the blocker |
| CustomerRegister.RegisterPage.constructor | pages/RegisterPage.tsx:11-21 | the form starts empty with no error |
| CustomerRegister.RegisterPage.HandleSubmit | pages/RegisterPage.tsx:23-43 | a blocked submit shows its message and leaves the store alone; otherwise the error is cleared, the user is registered with the generated code, and the page goes to /login |
| MerchantProfile.ProfileForm.With | pages/MerchantProfilePage.tsx:33-39 | an edit sets the named field and leaves every other field |
| MerchantProfile.FormOf | pages/MerchantProfilePage.tsx:22-31 | each of the eight fields is the merchant's value, or "" when there is no merchant |
| MerchantProfile.MerchantProfilePage.constructor | pages/MerchantProfilePage.tsx:21-31 | the page starts from the merchant's values, not editing |
| MerchantProfile.MerchantProfilePage.View | pages/MerchantProfilePage.tsx:75-83 | with no merchant only the loading view is shown |
| MerchantProfile.ShownValue | pages/MerchantProfilePage.tsx:312 | the read-only value differs from the merchant's field exactly for an empty description, which shows "Sem descrição"; a description is never shown empty |
| MerchantProfile.MerchantProfilePage.Displayed | pages/MerchantProfilePage.tsx:150-312 | while editing the inputs show the form's raw values; otherwise the merchant's values, with the placeholder for an empty description |
| MerchantProfile.MerchantProfilePage.Edit | pages/MerchantProfilePage.tsx:105-112 | the Edit button enters editing mode and changes no field |
| MerchantProfile.MerchantProfilePage.HandleInputChange | pages/MerchantProfilePage.tsx:33-39 | only the named field changes |
| MerchantProfile.MerchantProfilePage.HandleSave | pages/MerchantProfilePage.tsx:41-46 | leaves editing mode, changes neither the merchant nor storage, and the page again shows the merchant's values, placeholder included |
| MerchantProfile.MerchantProfilePage.HandleCancel | pages/MerchantProfilePage.tsx:48-60 | restores the merchant's values and leaves editing mode |
| MerchantProfile.EditThenCancel | pages/MerchantProfilePage.tsx:48-60 | edit, type and cancel leaves the form as the merchant's values |
| Listing.StatusSplit | pages/MerchantOffersPage.tsx:69-71 | "all" admits every record, "active" and "inactive" admit complementary ones, and any other key admits none |
| MerchantOffers.FilteredOffers | pages/MerchantOffersPage.tsx:66-74 | an order-preserving subsequence holding exactly the offers that match the search and the status |
| MerchantOffers.NoFilterKeepsAll | pages/MerchantOffersPage.tsx:66-74 | an empty search with "all" keeps every offer |
| MerchantOffers.ActiveInactivePartition | pages/MerchantOffersPage.tsx:69-71 | the active and inactive results split the "all" result |
| MerchantOffers.UnknownStatusSelectsNothing | pages/MerchantOffersPage.tsx:69-71 | a status key other than the three selects nothing |
| MerchantOffers.ActiveIsNotExpired | pages/MerchantOffersPage.tsx:99-109 | an offer active now is not expired |
| MerchantOffers.BadgeOf | pages/MerchantOffersPage.tsx:297-307 | "Ativa" iff active now; "Inativa" iff neither active nor expired |
| MerchantOffers.ExpiredBadgeIffExpired | pages/MerchantOffersPage.tsx:297-307 | "Expirada" iff the offer has expired |
| MerchantOffers.Counters | pages/MerchantOffersPage.tsx:153-194 | inactive plus flagged-active equals the total; the date-aware active and expired counts fit in the total; active now is at most flagged-active |
| MerchantOffers.DiscountOf | pages/MerchantOffersPage.tsx:316-330 | a non-zero percentage is shown as a percentage, otherwise the amount, defaulting to 0 |
| MerchantOffers.EmptyHintOf | pages/MerchantOffersPage.tsx:255-258 | the hint says "adjust filters" iff a search term or a status is set |
| MerchantOffers.EmptyStateWithoutFilters | pages/MerchantOffersPage.tsx:250-260 | with no filter the list is empty only when there are no offers, and the hint invites creating one |
| MerchantOffers.MockStatusCounts | pages/MerchantOffersPage.tsx:24-64 | the mock list has two active offers and one inactive |
| MerchantProducts.FilteredProducts | pages/MerchantProductsPage.tsx:64-73 | an order-preserving subsequence holding exactly the products matching search, category and status |
| MerchantProducts.NoFilterKeepsAll | pages/MerchantProductsPage.tsx:64-73 | no filter keeps every product |
| MerchantProducts.CategoryNarrows | pages/MerchantProductsPage.tsx:67 | setting a category never enlarges the result |
| MerchantProducts.StatusNarrows | pages/MerchantProductsPage.tsx:68-70 | setting a status never enlarges the result |
| MerchantProducts.ActiveInactivePartition | pages/MerchantProductsPage.tsx:68-70 | the active and inactive results split the "all" result |
| MerchantProducts.EmptyHintOf | pages/MerchantProductsPage.tsx:202-205 | the hint says "adjust filters" iff any filter is set |
| MerchantProducts.AddFirstMeansNoProducts | pages/MerchantProductsPage.tsx:202-217 | the "add your first product" hint with an empty result means there are no products |
| MerchantCustomers.FilteredCustomers | pages/MerchantCustomersPage.tsx:65-74 | an order-preserving subsequence holding exactly the customers matching search and status |
| MerchantCustomers.NoFilterKeepsAll | pages/MerchantCustomersPage.tsx:65-74 | an empty search with "all" keeps every customer, in order |
| MerchantCustomers.ActiveInactivePartition | pages/MerchantCustomersPage.tsx:69-71 | the status filter splits customers by their active flag |
| MerchantCustomers.PhoneMatchesAsTyped | pages/MerchantCustomersPage.tsx:68 | a term found in the phone as typed selects the customer |
| MerchantCustomers.ActiveAtMostTotal | pages/MerchantCustomersPage.tsx:124-137 | the active count is at most the total |
| MerchantCustomers.MockActiveCount | pages/MerchantCustomersPage.tsx:22-63 | three of the four mock customers are active |
| Initials.SplitOnSpace | pages/MerchantCustomersPage.tsx:88 | `split(' ')` always yields at least one piece |
| Initials.JoinFirstsIsWordStarts | pages/MerchantCustomersPage.tsx:87-89 | the split/map/join pipeline picks exactly the characters that start a word |
| Initials.GetInitialsSpec | pages/MerchantSearchUsersPage.tsx:135-137 | the initials are the upper-cased first characters of the non-empty space-separated words |
| Initials.WordStartsBound | pages/MerchantCustomersPage.tsx:87-89 | never more initials than characters, and none for a name of spaces |
| Initials.TwoWords | pages/MerchantCustomersPage.tsx:87-89 | a two-word name such as "Maria Silva" gives the first letter of each word, upper-cased |
| SearchUsers.SearchResults | pages/MerchantSearchUsersPage.tsx:107-112 | an order-preserving subsequence of the users holding exactly those whose name, email or code contains the term ignoring case, or whose phone contains it |
| SearchUsers.SearchDisabled | pages/MerchantSearchUsersPage.tsx:184 | the button is disabled iff a search is running or the term is blank |
| SearchUsers.SearchUsersPage.constructor | pages/MerchantSearchUsersPage.tsx:33-39 | the page starts with no term, no results and no search |
| SearchUsers.SearchUsersPage.HandleSearch | pages/MerchantSearchUsersPage.tsx:98-116 | a blank term changes nothing; otherwise the untrimmed term's results are shown and the page records a finished search |
| SearchUsers.SearchTwice | pages/MerchantSearchUsersPage.tsx:98-116 | the results always come from the user list in order, the later non-blank term wins, and a search once made is remembered |
| Transactions.FilteredTransactions | pages/TransactionsPage.tsx:65-74 | an order-preserving subsequence holding the search matches, restricted to "concluída" or "pendente" for those two keys |
| Transactions.OtherKeysAreAll | pages/TransactionsPage.tsx:69-73 | any key other than "completed" and "pending" gives exactly the search matches, like "all" |
| Transactions.CompletedPendingDisjoint | pages/TransactionsPage.tsx:70-71 | the completed and pending results are disjoint and together fit in the "all" result |
| Transactions.StatusText | pages/TransactionsPage.tsx:85-92 | the three known statuses are capitalised and any other status is returned unchanged |
| Transactions.StatusTextIdempotent | pages/TransactionsPage.tsx:85-92 | applying the mapping twice is applying it once |
| Transactions.AsWrittenSuffix | pages/TransactionsPage.tsx:149 | the heading as written starts with the count and " transação" and ends with "ões" iff the count is not 1 |
| Transactions.HeadingAsWrittenMisspellsPlural | pages/TransactionsPage.tsx:149 | for two transactions the heading as written reads "2 transaçãoões", not the corrected heading |
| Transactions.Heading | pages/TransactionsPage.tsx:149 | the corrected heading: "transação" for one, "transações" otherwise |
| Transactions.HeadingsAgreeOnlyOnOne | pages/TransactionsPage.tsx:149 | the heading as written and the corrected one agree exactly for a count of 1 |
| Cyclic.Next | components/BannerCarousel.tsx:67-69 | one step forward stays in range and wraps from the last index to the first |
| Cyclic.Prev | components/BannerCarousel.tsx:63-65 | one step back stays in range and wraps from the first index to the last |
| Cyclic.PrevUndoesNext | components/BannerCarousel.tsx:63-69 | a step back undoes a step forward |
| Cyclic.NextUndoesPrev | components/BannerCarousel.tsx:63-69 | a step forward undoes a step back |
| Cyclic.AdvanceIsSum | components/BannerCarousel.tsx:51-57 | k forward steps land on (i + k) mod n |
| Cyclic.FullTurn | components/BannerCarousel.tsx:51-57 | n forward steps return to the start |
| Cyclic.ExactlyOneDot | components/BannerCarousel.tsx:124-128 | in range, the highlighted dots are exactly the current one |
| BannerCarousel.SlidePosition | components/BannerCarousel.tsx:78-80 | centred iff current, off to the left iff before it, off to the right iff after it |
| BannerCarousel.ExactlyOneCentred | components/BannerCarousel.tsx:78-80 | exactly one banner is centred: the current one |
| BannerCarousel.Carousel.constructor | components/BannerCarousel.tsx:14 | the carousel opens on banner 0 |
| BannerCarousel.Carousel.Current | components/BannerCarousel.tsx:16-49 | the banner on show is one of the four |
| BannerCarousel.Carousel.GoToSlide | components/BannerCarousel.tsx:59-61 | a dot click sets the index to exactly that dot |
| BannerCarousel.Carousel.GoToPrevious | components/BannerCarousel.tsx:63-65 | one step back with wrap-around, staying in range |
| BannerCarousel.Carousel.GoToNext | components/BannerCarousel.tsx:67-69 | one step forward with wrap-around, staying in range |
| BannerCarousel.Carousel.Tick | components/BannerCarousel.tsx:51-57 | a timer firing is the same step as the right arrow |
| BannerCarousel.ArrowsCancel | components/BannerCarousel.tsx:63-69 | left then right, or right then left, returns to the same banner |
| BannerCarousel.Ticks | components/BannerCarousel.tsx:51-57 | k firings advance k banners with wrap-around, and four firings return to the start |
| OfferDetail.OfferFor | pages/OfferDetailPage.tsx:16-52 | the offer has three pictures and its savings are the original price minus the final price |
| OfferDetail.OfferIgnoresId | pages/OfferDetailPage.tsx:7 | every route id shows the same offer |
| OfferDetail.OfferDetailPage.constructor | pages/OfferDetailPage.tsx:8 | the gallery opens on picture 0 |
| OfferDetail.OfferDetailPage.Picture | pages/OfferDetailPage.tsx:16-24 | the picture shown is one of the offer's |
| OfferDetail.OfferDetailPage.NextImage | pages/OfferDetailPage.tsx:60-62 | one picture forward with wrap-around, staying in range |
| OfferDetail.OfferDetailPage.PrevImage | pages/OfferDetailPage.tsx:64-66 | one picture back with wrap-around, staying in range |
| OfferDetail.OfferDetailPage.SelectImage | pages/OfferDetailPage.tsx:135-137 | dot i selects picture i, and only that dot is highlighted |
| OfferDetail.ArrowsCancel | pages/OfferDetailPage.tsx:60-66 | each arrow undoes the other |
| PartnerDetail.GalleryShape | pages/PartnerDetailPage.tsx:22-26 | the partner has three distinct pictures |
| PartnerDetail.PartnerDetailPage.constructor | pages/PartnerDetailPage.tsx:8-9 | the page opens on picture 0, not favourited |
| PartnerDetail.PartnerDetailPage.Picture | pages/PartnerDetailPage.tsx:99-103 | the picture shown is one of the partner's |
| PartnerDetail.PartnerDetailPage.NextImage | pages/PartnerDetailPage.tsx:49-51 | one picture forward with wrap-around; the favourite flag is untouched |
| PartnerDetail.PartnerDetailPage.PrevImage | pages/PartnerDetailPage.tsx:53-55 | one picture back with wrap-around; the favourite flag is untouched |
| PartnerDetail.PartnerDetailPage.SelectImage | pages/PartnerDetailPage.tsx:121-123 | dot i selects picture i, only that dot is highlighted, and the flag is untouched |
| PartnerDetail.PartnerDetailPage.ToggleFavorite | pages/PartnerDetailPage.tsx:80 | the heart flips the flag and leaves the picture |
| PartnerDetail.ToggleTwice | pages/PartnerDetailPage.tsx:80 | two clicks on the heart restore the flag |
| PartnerDetail.ArrowsCancel | pages/PartnerDetailPage.tsx:49-55 | each arrow undoes the other and neither touches the heart |

## Left out

- Persistence: `localStorage` and `JSON.stringify`/`JSON.parse` are a field holding an `Option` of the identity. A corrupt entry, which makes the source's `JSON.parse` throw, is not representable.
- Timing: the `setTimeout` delays inside login, register, search and submit, and the carousel's `setInterval`, are not modelled as time. Each asynchronous handler is one atomic step, and a timer firing is a call to `Tick`.
- React scheduling: state batching and `useEffect` ordering are left out. A store's restore is the `Restore` method, and a page's mount is its constructor.
- Clock and formats: `Date.now()`, `new Date().toISOString()` and `getFullYear()` are parameters. `toLocaleDateString`, `Intl.NumberFormat` and `toFixed` are presentation and are not modelled.
- Parsing: `Number(...)`/`isNaN` and `new Date(...)` are parameters, so the model holds for every parser rather than for JavaScript's in particular.
- Case mapping: `toLowerCase`/`toUpperCase` cover ASCII and Latin-1 letters only. Other scripts, `ß`, `ÿ` and `µ` are left unmapped, while JavaScript maps `µ` to U+039C, `ÿ` to U+0178 and `ß` to "SS".
- String length: `.length` and `s[0]` count Unicode scalar values, not UTF-16 code units. They differ outside the Basic Multilingual Plane. For example, "😀😀😀" has length 3 here and 6 in JavaScript, so the password-length checks reject it. And `getInitials("😀 Ana")` takes the whole emoji where JavaScript takes a lone surrogate.
- Money: prices, balances, cashback sums and discounts are exact reals, with no floating-point rounding.
- Foreign calls: `alert`, `window.confirm`, `window.open`, `window.scrollTo`, `encodeURIComponent`, `navigator` and `console.log` are left out. So are the offer and product toggle and delete handlers, which only log, and the share handlers of the detail pages.
- Native form validation: the browser's constraint validation and value sanitisation are left out. This covers the `required`, `type="email"`, `type="number"`, `type="date"`, `min` and `step` attributes of the register, merchant register, offer create and product create inputs, none of whose forms sets `noValidate`. Every submit handler is modelled as called on whatever strings were typed. In the browser, a blank required field, an email without `@`, a negative amount or a fractional stock can stop the submit before the handler runs. A non-numeric entry in a number input reaches the handler as "".
- Path matching: the route table and `Resolve` work on route patterns such as `/offers/:id`. Matching a concrete URL path against a pattern with `:id` parameters is not modelled.
- Presentation: JSX, Tailwind classes, icons and modals are left out. The show-password toggles are left out too, since they only switch an input's type.
- The login page is left out, since it only forwards to `login` and navigates. The display-only pages (dashboards, payment, partners, referral, profile, home) and the presentational components are also left out.
- The merchant profile page's logout button is left out. It calls the store's `Logout`, which is modelled.
- The admin store is modelled, but no route mounts it, so nothing in the model calls it either.
- BannerCarousel.Carousel.GoToSlide: requires an index below the banner count, because the only callers are the four dots. `goToSlide` itself accepts any number.
- Review and feature lists, ratings and the other static texts of the detail pages are left out. The detail datatypes keep only the fields the gallery and heading use.

## Findings

| source | as written | input that shows it | evidently intended | confidence | as-written member | corrected member |
|---|---|---|---|---|---|---|
| pages/TransactionsPage.tsx:149 | the heading appends "ões" to "transação" for any count other than 1 | a list of 2 transactions: "2 transaçãoões" | "2 transações" (the plural replaces "ção" with "ções") | high; not executed | Transactions.HeadingAsWrittenMisspellsPlural | Transactions.Heading |
