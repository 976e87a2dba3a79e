# E-commerce storefront logic in Dafny

This project models the logic of a React Native storefront: a shop, a cart, a checkout and a seller area. The logic lives in small event handlers inside screen components. The model keeps those handlers and drops rendering, styles and navigation. It covers:

- the three-step checkout wizard (shipping, payment, review), with its field validators and its card, expiry and phone formatters;
- the cart-facing arithmetic, and the quantity steppers in the cart row and on the product page;
- the login, signup, password-reset, seller-registration and add-product forms;
- the "set default" and delete operations on saved cards and addresses;
- the privacy, notification and settings toggles;
- the search, FAQ and product-management filters, including the grouping of FAQs by category;
- the accordions, the rating stars, the tab bar, the simulated auth session and the light/dark theme.

There is one module per source file. Shared modules:

- `Text` holds the JavaScript string primitives the screens use, written out;
- `Seqs` holds `filter` and the subsequence relation;
- `Accordion` holds the single-expansion toggle;
- `DefaultLists` holds set-default and delete;
- `CartContext` holds the cart store's interface.

The cart store's implementation is not part of this model. The screens' calls into it are recorded in a `CartChannel` log, and no store behaviour is assumed.

State that the source keeps in React `useState` hooks becomes the fields of a class. Its handlers become methods with `modifies` clauses. Pure derivations (filters, toggles, formatters, colours) are functions, with lemmas relating them to a reference definition or to an inverse.

Opaque outcomes become parameters:

- whether a network or storage call throws;
- the clock-based user id and the random order id;
- JavaScript `Number()` as an `isNumber` predicate;
- whether a tab-press event was prevented.

## Model

| member | source | states |
|---|---|---|
| CheckoutScreen.ValidateShippingForm | src/screens/cart/CheckoutScreen.tsx:64-101 | The shipping validator's error record is the field-by-field record (a blank field gives "required" and skips the format test). Its verdict holds iff all six fields are non-blank, the ZIP code has the 5-digit or 5+4 form, and the phone holds exactly 10 digits. |
| CheckoutScreen.ShippingErrorsNoneIff | src/screens/cart/CheckoutScreen.tsx:64-101 | The shipping error record is empty exactly when the shipping stage is valid. |
| CheckoutScreen.ZipTestedUntrimmed | src/screens/cart/CheckoutScreen.tsx:84-97 | The ZIP pattern is tested on the untrimmed text, so " 12345" gets the invalid-ZIP error and the stage fails. |
| CheckoutScreen.ValidatePaymentForm | src/screens/cart/CheckoutScreen.tsx:103-138 | The payment validator's error record is the field-by-field record. Its verdict holds iff the card has 16 digits once whitespace is removed, the expiry is MM/YY with month 01-12, the CVV has 3 or 4 digits, and the holder name is non-blank. |
| CheckoutScreen.PaymentErrorsNoneIff | src/screens/cart/CheckoutScreen.tsx:103-138 | The payment error record is empty exactly when the payment stage is valid. |
| CheckoutScreen.FormatCardNumber | src/screens/cart/CheckoutScreen.tsx:154-158 | The card formatter returns at most 19 characters, and nothing for an input without digits. Its layout is stated by the next rows. |
| CheckoutScreen.FormatCardNumberIsGrouped | src/screens/cart/CheckoutScreen.tsx:154-158 | The formatted card number is the first min(16, n) digits of the input, in space-separated groups of four. |
| CheckoutScreen.FormatCardNumberShape | src/screens/cart/CheckoutScreen.tsx:154-158 | The formatted card number has at most 19 characters: a space at every fifth position and digits elsewhere, no trailing space. Stripping its spaces gives back the first min(16, n) input digits. |
| CheckoutScreen.CardVerdict | src/screens/cart/CheckoutScreen.tsx:107-113 | A card field whose non-space characters are the first at most 16 of some digits passes the card check iff there were 16 digits. |
| CheckoutScreen.FormattedCardValidIff | src/screens/cart/CheckoutScreen.tsx:154-158 | A formatted card number passes the card check iff the input holds at least 16 digits. |
| CheckoutScreen.StripGrouped | src/screens/cart/CheckoutScreen.tsx:156 | Removing the spaces from grouped digits gives back the digits. |
| CheckoutScreen.FormatExpiryDate | src/screens/cart/CheckoutScreen.tsx:160-166 | The expiry formatter returns at most five characters, at most one more than the input's digits, and the digits alone when there are fewer than two. |
| CheckoutScreen.FormatExpiryDateShape | src/screens/cart/CheckoutScreen.tsx:160-166 | Fewer than two digits come back unchanged. Otherwise the result is the first two digits, '/', and up to two further digits, at most five characters in all. |
| CheckoutScreen.FormattedExpiryValidIff | src/screens/cart/CheckoutScreen.tsx:160-166 | A formatted expiry passes the MM/YY check iff the input has at least four digits and its first two form a month 01-12. |
| CheckoutScreen.FormatPhoneNumber | src/screens/cart/CheckoutScreen.tsx:168-175 | The phone formatter: ten digits are laid out, anything else is returned as typed. Its layout is stated by the next row. |
| CheckoutScreen.FormatPhoneNumberShape | src/screens/cart/CheckoutScreen.tsx:168-175 | Ten digits become the 14 characters "(" + first three + ") " + next three + "-" + last four, position by position, so the digits are the same and in order. Any other input comes back unchanged. |
| CheckoutScreen.PhoneLayoutDigits | src/screens/cart/CheckoutScreen.tsx:169-172 | The parentheses, space and hyphen of the phone layout add no digits, so the layout keeps exactly the ten digits in order. |
| CheckoutScreen.FormatPhoneKeepsVerdict | src/screens/cart/CheckoutScreen.tsx:168-175 | Formatting never changes the phone check's verdict, and a formatted ten-digit number passes it. |
| CheckoutScreen.Wizard.constructor | src/screens/cart/CheckoutScreen.tsx:38-57 | The wizard starts on the shipping step with empty forms, no errors and no loading. |
| CheckoutScreen.Wizard.EditShipping | src/screens/cart/CheckoutScreen.tsx:244-296 | Typing sets exactly the edited shipping field. Only the full-name field clears its own error. The step and the payment data are unchanged. |
| CheckoutScreen.Wizard.EditPayment | src/screens/cart/CheckoutScreen.tsx:320-359 | The card number is stored formatted and clears its error. The other payment fields are stored as typed. The step and the shipping data are unchanged. |
| CheckoutScreen.Wizard.Next | src/screens/cart/CheckoutScreen.tsx:140-152 | Shipping moves to payment, and payment to review, only when that stage validates; advancing clears all errors. A failure keeps the step and stores that stage's errors. The review step does nothing. Every step past a stage was validated (the `Valid` invariant). |
| CheckoutScreen.Wizard.PlaceOrder | src/screens/cart/CheckoutScreen.tsx:177-193 | Placing the order sends exactly one clear-cart call, hands on the order id, and leaves loading false. |
| CartItemRow.LineAmount | src/components/cart/CartItem.tsx:49 | The line amount is 0 at quantity 0, the unit price at quantity 1, and non-negative for a non-negative price and quantity. |
| CartItemRow.StepperMovesAmount | src/components/cart/CartItem.tsx:22-30 | The quantity the increment asks for shows one unit price more. The quantity the decrement asks for, above 1, shows one unit price less. |
| CartItemRow.DecrementDisabled | src/components/cart/CartItem.tsx:57 | The minus button is disabled at a quantity of 1 or less. |
| CartItemRow.HandleIncrement | src/components/cart/CartItem.tsx:22-24 | Increment sends one update with the row's id and quantity + 1. It keeps every requested quantity at least 1. |
| CartItemRow.HandleDecrement | src/components/cart/CartItem.tsx:26-30 | Decrement sends quantity - 1 only above 1 and sends nothing at 1 or below, which is also when the button is disabled. It keeps every requested quantity at least 1. |
| CartItemRow.HandleRemove | src/components/cart/CartItem.tsx:32-34 | Remove sends one remove call with exactly the row's id. |
| CartContext.CartChannel.AddItem | src/screens/product/ProductDetailScreen.tsx:26-29 | The call is appended to the log of calls made on the cart store. |
| CartContext.CartChannel.UpdateQuantity | src/components/cart/CartItem.tsx:23 | The call is appended to the log of calls made on the cart store. |
| CartContext.CartChannel.RemoveItem | src/components/cart/CartItem.tsx:33 | The call is appended to the log of calls made on the cart store. |
| CartContext.CartChannel.ClearCart | src/screens/cart/CheckoutScreen.tsx:184 | The call is appended to the log of calls made on the cart store. |
| CartScreen.SummaryOf | src/screens/cart/CartScreen.tsx:18-20 | The subtotal is the store's total. Shipping is 10 iff there is at least one line and 0 iff there is none. Total = subtotal + shipping. |
| CartScreen.Render | src/screens/cart/CartScreen.tsx:29-59 | An empty cart renders only the empty state. A filled cart shows the number of lines and the summary. |
| CartScreen.CheckoutOnlyWhenNonEmpty | src/screens/cart/CartScreen.tsx:29-49 | The checkout action is offered iff the cart has a line. |
| CartScreen.HeaderCountsLines | src/screens/cart/CartScreen.tsx:59 | The header counts lines, not units: two lines of three units each show 2. |
| MainCartScreen.Total | src/screens/main/CartScreen.tsx:26 | Total = subtotal + the fixed shipping of 10, for any contents. |
| MainCartScreen.SubtotalAppend | src/screens/main/CartScreen.tsx:24 | The subtotal `reduce` is additive over concatenation, so it is the sum of price × quantity over the lines. |
| MainCartScreen.SubtotalCons | src/screens/main/CartScreen.tsx:24 | The subtotal of a list is the first line's amount plus the subtotal of the rest. |
| MainCartScreen.SubtotalNonNegative | src/screens/main/CartScreen.tsx:24 | Non-negative prices and quantities give a non-negative subtotal. |
| MainCartScreen.MockCartFigures | src/screens/main/CartScreen.tsx:10-35 | The sample cart has one line, a subtotal of 99.99 and a total of 109.99. |
| MainCartScreen.ScreensAgree | src/screens/cart/CartScreen.tsx:18-20 | Given this subtotal as the store total, the two cart screens show the same total for a non-empty cart. For an empty cart they differ: 0 against 10. |
| ProductDetailScreen.ProductDetail.constructor | src/screens/product/ProductDetailScreen.tsx:20-23 | The quantity starts at 1, no variant is selected and the product is not a favourite. |
| ProductDetailScreen.ProductDetail.MinusDisabled | src/screens/product/ProductDetailScreen.tsx:97 | The minus button is disabled at a quantity of 1 or less. |
| ProductDetailScreen.ProductDetail.Minus | src/screens/product/ProductDetailScreen.tsx:96 | Minus sets the quantity to max(1, q - 1) and changes nothing else, so the quantity never drops below 1. |
| ProductDetailScreen.ProductDetail.Plus | src/screens/product/ProductDetailScreen.tsx:106 | Plus adds exactly 1, with no upper bound. |
| ProductDetailScreen.ProductDetail.ChipSelected | src/screens/product/ProductDetailScreen.tsx:120 | A variant chip is drawn selected iff it is the stored variant. |
| ProductDetailScreen.ProductDetail.SelectVariant | src/screens/product/ProductDetailScreen.tsx:117-121 | Selecting a chip stores its variant and changes nothing else. |
| ProductDetailScreen.ProductDetail.ToggleFavorite | src/screens/product/ProductDetailScreen.tsx:54 | The favourite flag is negated, so toggling twice restores it. |
| ProductDetailScreen.ProductDetail.AddToCart | src/screens/product/ProductDetailScreen.tsx:25-31 | One add call with the product, the selected variant and the current quantity (at least 1), then the cart route. |
| ProductDetailScreen.ProductDetail.BuyNow | src/screens/product/ProductDetailScreen.tsx:33-39 | The same add call as add-to-cart, then the checkout route. |
| AuthContext.AuthSession.IsAuthenticated | src/context/AuthContext.tsx:75 | The session is authenticated iff a user is present. |
| AuthContext.AuthSession.constructor | src/context/AuthContext.tsx:23 | There is no user at first, so the session is not authenticated. |
| AuthContext.AuthSession.Login | src/context/AuthContext.tsx:25-33 | Login sets the user to id "1", the given email and the name "John Doe". The password is ignored. |
| AuthContext.AuthSession.Signup | src/context/AuthContext.tsx:40-48 | Signup sets a user with the given full name and email and the clock-based id. |
| AuthContext.AuthSession.ResetPassword | src/context/AuthContext.tsx:55-65 | Resetting a password leaves the user unchanged. |
| AuthContext.AuthSession.Logout | src/context/AuthContext.tsx:67-69 | Logout clears the user, so the session is no longer authenticated. |
| LoginScreen.LoginForm.constructor | src/screens/auth/LoginScreen.tsx:19-23 | The form starts empty, not loading, with no error. |
| LoginScreen.LoginForm.EditEmail | src/screens/auth/LoginScreen.tsx:97-100 | Typing the email stores it and clears the error. |
| LoginScreen.LoginForm.EditPassword | src/screens/auth/LoginScreen.tsx:114-117 | Typing the password stores it and clears the error. |
| LoginScreen.LoginForm.HandleLogin | src/screens/auth/LoginScreen.tsx:25-40 | An empty email or password sets "Please fill in all fields" and makes no login call. Otherwise login is called with exactly the entered credentials. A failure sets "Invalid email or password". Loading ends false. |
| LoginScreen.LoginForm.HandleGuestLogin | src/screens/auth/LoginScreen.tsx:42-51 | Guest login leaves loading false whatever the outcome. The form and the error are untouched. |
| SignupScreen.SignupError | src/screens/auth/SignupScreen.tsx:32-46 | The message is empty iff the form is valid. Otherwise it is "fill in all fields" iff a field is empty (untrimmed), then the mismatch message iff the passwords differ, then the length message iff the password is shorter than 6. |
| SignupScreen.MismatchBeforeLength | src/screens/auth/SignupScreen.tsx:37-44 | A short password that also mismatches reports the mismatch, because the checks run in that order. |
| SignupScreen.SignupScreenState.constructor | src/screens/auth/SignupScreen.tsx:19-30 | The form starts empty, not loading, with no error. |
| SignupScreen.SignupScreenState.Edit | src/screens/auth/SignupScreen.tsx:96-99 | Typing sets exactly the edited field and clears the error. |
| SignupScreen.SignupScreenState.ValidateForm | src/screens/auth/SignupScreen.tsx:32-46 | The form validates iff it is valid. On failure the error is the first failing check's message. |
| SignupScreen.SignupScreenState.HandleSignup | src/screens/auth/SignupScreen.tsx:48-60 | Signup is called only for a valid form, with its full name, email and password. A failure sets "Failed to create account". Loading ends false. |
| ForgotPasswordScreen.ResetForm.constructor | src/screens/auth/ForgotPasswordScreen.tsx:17-20 | The form starts empty, with no error and no success. |
| ForgotPasswordScreen.ResetForm.EditEmail | src/screens/auth/ForgotPasswordScreen.tsx:68-71 | Typing the email stores it and clears the error. |
| ForgotPasswordScreen.ResetForm.HandleResetPassword | src/screens/auth/ForgotPasswordScreen.tsx:22-37 | An empty email sets "Please enter your email address" and makes no reset call. Otherwise reset is called with the email. Success sets `success` with an empty error. A failure sets the failure message without setting `success`. Loading ends false and the user is unchanged. |
| BecomeSeller.ErrorsOf | src/screens/seller/BecomeSeller.tsx:119-157 | Each of store name, description, phone and address has its "required" message iff its trimmed value is empty, and "" otherwise. The plan error is set iff no plan is chosen. `submit` is reset to "". |
| BecomeSeller.ErrorsEmptyIffValid | src/screens/seller/BecomeSeller.tsx:119-157 | All errors are empty exactly when every field is filled and a plan is chosen. |
| BecomeSeller.DescribedErrorsOfValidForm | src/screens/seller/BecomeSeller.tsx:174-179 | Errors that describe a valid form are empty apart from `submit`. So the stale error record spread in the failure branch carries no field error. |
| BecomeSeller.PlanIdsDistinct | src/screens/seller/BecomeSeller.tsx:57-90 | The two plans ("standard" and "premium") have distinct ids, so at most one plan card is selected. |
| BecomeSeller.SellerScreen.constructor | src/screens/seller/BecomeSeller.tsx:101-116 | The form starts empty, with no errors, not loading. |
| BecomeSeller.SellerScreen.Edit | src/screens/seller/BecomeSeller.tsx:519-595 | Typing sets exactly the edited field and clears that field's error and the submit error. |
| BecomeSeller.SellerScreen.IsSelected | src/screens/seller/BecomeSeller.tsx:632 | A plan card is drawn selected iff its id is the stored selection. |
| BecomeSeller.SellerScreen.SelectPlan | src/screens/seller/BecomeSeller.tsx:632-636 | Choosing a plan stores its id and clears only the plan error. |
| BecomeSeller.CollectErrors | src/screens/seller/BecomeSeller.tsx:119-157 | Filling the error record field by field and clearing the flag on each failure gives exactly `ErrorsOf`, with the flag true iff the form is valid. |
| BecomeSeller.SellerScreen.ValidateForm | src/screens/seller/BecomeSeller.tsx:119-157 | All errors are collected into `ErrorsOf` with no short-circuit. The result is true iff the form is valid. |
| BecomeSeller.SellerScreen.HandleSubmit | src/screens/seller/BecomeSeller.tsx:159-184 | An invalid form stores its errors and makes no call. A valid form sends the store name, description, address (not the phone) and the chosen plan. Success leaves no error. A failure sets only the submit error, to the thrown message or the fallback text. Loading ends false. |
| AddProductScreen.ErrorsOfSpec | src/screens/seller/AddProductScreen.tsx:52-102 | Name, description and category are "required" iff blank after trim. Price and stock are "required" when blank, else "must be a number" when the numeric test fails, else "". The images error is set iff the list is empty. |
| AddProductScreen.ErrorsEmptyIffValid | src/screens/seller/AddProductScreen.tsx:52-102 | All errors are empty exactly when the form is valid. |
| AddProductScreen.CollectErrors | src/screens/seller/AddProductScreen.tsx:52-102 | Filling the error record field by field and flipping the flag gives exactly `ErrorsOf`, with the flag true iff the form is valid. |
| AddProductScreen.RemoveImage | src/screens/seller/AddProductScreen.tsx:48-50 | Removing an index in range shortens the list by one, and an out-of-range index keeps its length. Nothing new enters the list. |
| AddProductScreen.RemoveImageSpec | src/screens/seller/AddProductScreen.tsx:48-50 | Removing index i deletes exactly position i and keeps the others in order. An out-of-range index changes nothing. |
| AddProductScreen.AddProductForm.constructor | src/screens/seller/AddProductScreen.tsx:15-32 | The form starts empty, with no images and no errors. |
| AddProductScreen.AddProductForm.Edit | src/screens/seller/AddProductScreen.tsx:167-243 | Typing sets exactly the edited field and clears only that field's error. |
| AddProductScreen.AddProductForm.PickImage | src/screens/seller/AddProductScreen.tsx:34-46 | A picked, non-empty URI is appended at the end and clears only the images error. A cancelled pick changes nothing. |
| AddProductScreen.AddProductForm.RemoveImageAt | src/screens/seller/AddProductScreen.tsx:48-50 | The image list becomes `RemoveImage` of the old list. The form and the errors are unchanged. |
| AddProductScreen.AddProductForm.ValidateForm | src/screens/seller/AddProductScreen.tsx:52-102 | The error record becomes `ErrorsOf`. The result is true iff the form is valid. |
| AddProductScreen.AddProductForm.HandleSubmit | src/screens/seller/AddProductScreen.tsx:104-119 | An invalid form only stores its errors. A valid one is accepted and loading ends false. |
| DefaultLists.SetDefault | src/screens/main/PaymentMethodsScreen.tsx:45-50 | Each entry's `isDefault` becomes (its id == the target). The length, the order and every other field are preserved. |
| DefaultLists.SetDefaultExactlyOne | src/screens/main/PaymentMethodsScreen.tsx:45-50 | With unique ids and the target present, exactly one entry is default afterwards. |
| DefaultLists.SetDefaultAbsent | src/screens/main/PaymentMethodsScreen.tsx:45-50 | With the target absent, no entry is default afterwards. |
| DefaultLists.SetDefaultIdempotent | src/screens/main/ShippingAddressesScreen.tsx:54-59 | Setting the same default twice equals setting it once. |
| DefaultLists.Delete | src/screens/main/PaymentMethodsScreen.tsx:52-54 | No kept entry has the deleted id. Every other entry is kept, in order, as a subsequence. |
| DefaultLists.DeleteCounts | src/screens/main/ShippingAddressesScreen.tsx:61-63 | Delete keeps every occurrence of the other entries and none with the deleted id. |
| DefaultLists.DeleteAbsent | src/screens/main/ShippingAddressesScreen.tsx:61-63 | Deleting an absent id leaves the list unchanged. |
| DefaultLists.DeleteDefaultLeavesNone | src/screens/main/PaymentMethodsScreen.tsx:52-54 | Deleting the only default leaves no default. Nothing is reassigned. |
| PaymentMethodsScreen.MockListDefaults | src/screens/main/PaymentMethodsScreen.tsx:22-54 | The sample cards have unique ids. Making either card the default gives exactly one default, and deleting that card leaves the other card, not default. |
| ShippingAddressesScreen.SetDefaultThenDelete | src/screens/main/ShippingAddressesScreen.tsx:54-63 | After setting a present id as the default there is exactly one default. Deleting it leaves no default and keeps all the other addresses in order. |
| ShippingAddressesScreen.MockAddressesOneDefault | src/screens/main/ShippingAddressesScreen.tsx:25-50 | The sample addresses have unique ids, and exactly the first is the default. |
| PrivacySecurityScreen.ToggleItem | src/screens/main/PrivacySecurityScreen.tsx:119-120 | Only the value can change. A matching item gets a boolean value opposite to its old one, a missing value counting as false. Any other item is unchanged. |
| PrivacySecurityScreen.HandleToggle | src/screens/main/PrivacySecurityScreen.tsx:113-127 | Only the addressed section changes. In it, every item's value is negated iff its id matches. |
| PrivacySecurityScreen.ToggleEffect | src/screens/main/PrivacySecurityScreen.tsx:113-127 | A toggle preserves the number and order of sections and items and every non-value field. Other sections are equal to before. In the addressed section, matching items flip and the others stay. |
| PrivacySecurityScreen.ToggleNoMatch | src/screens/main/PrivacySecurityScreen.tsx:113-127 | An out-of-range section index leaves the settings unchanged. |
| PrivacySecurityScreen.ToggleTwice | src/screens/main/PrivacySecurityScreen.tsx:119-120 | When the matching items hold a boolean value, toggling twice restores the settings. |
| PrivacySecurityScreen.InitialTogglesUndo | src/screens/main/PrivacySecurityScreen.tsx:30-127 | On the initial settings, any toggle done twice restores them. |
| NotificationsScreen.ToggleSetting | src/screens/main/NotificationsScreen.tsx:22-24 | Toggling negates exactly the given key. Every other key is unchanged. |
| NotificationsScreen.ToggleTwice | src/screens/main/NotificationsScreen.tsx:22-24 | Toggling the same key twice restores the settings. |
| NotificationsScreen.InitialValues | src/screens/main/NotificationsScreen.tsx:14-20 | Promotions starts off and the other four keys start on. |
| SettingsScreen.ToggleSetting | src/screens/settings/SettingsScreen.tsx:27-43 | The key in the chosen record is assigned the value. Other keys, and the other record, are unchanged. |
| SettingsScreen.ToggleIdempotent | src/screens/settings/SettingsScreen.tsx:32-42 | The operation assigns rather than flips, so repeating a call equals doing it once. |
| SettingsScreen.ToggleCurrentValue | src/screens/settings/SettingsScreen.tsx:32-42 | Assigning a key its current value changes nothing. |
| SearchScreen.Search | src/screens/main/SearchScreen.tsx:85-96 | The list `onChangeSearch` stores: nothing for a blank query, else the catalogue filtered by the match. Its properties are stated by the next row. |
| SearchScreen.SearchSpec | src/screens/main/SearchScreen.tsx:85-96 | A blank query finds nothing. Any other query finds exactly the products whose lowercased name or description contains the lowercased query, as an order-preserving subsequence of the catalogue. |
| SearchScreen.OnChangeSearch | src/screens/main/SearchScreen.tsx:85-96 | The query is stored. The results are empty for a blank query and otherwise hold exactly the matching catalogue products. |
| SearchScreen.HandleCategoryPress | src/screens/main/SearchScreen.tsx:98-101 | A category press runs the same search with the category's name. |
| SearchScreen.HandleSearchPress | src/screens/main/SearchScreen.tsx:103-106 | A chip press runs the same search with the chip's text. |
| SearchScreen.ViewOf | src/screens/main/SearchScreen.tsx:215 | The suggestions show iff the stored query is exactly empty. |
| SearchScreen.BlankQueryShowsEmptyResults | src/screens/main/SearchScreen.tsx:87-90 | A whitespace-only query shows an empty results list, not the suggestions. |
| SearchScreen.PaddedQueryFindsNothing | src/screens/main/SearchScreen.tsx:92-93 | The query is matched untrimmed: "camera" followed by 50 spaces finds nothing. |
| Seqs.Filter | src/screens/main/SearchScreen.tsx:91 | `filter` returns exactly the elements that satisfy the predicate, as an order-preserving subsequence. |
| Seqs.FilterCount | src/screens/main/HelpCenterScreen.tsx:64 | `filter` keeps every occurrence of a satisfying element and none of the others. |
| HelpCenterScreen.FilteredFaqs | src/screens/main/HelpCenterScreen.tsx:64-67 | The kept FAQs are exactly those whose lowercased question or answer contains the lowercased query, in order. |
| HelpCenterScreen.EmptyQueryKeepsAll | src/screens/main/HelpCenterScreen.tsx:64-67 | The empty query keeps every FAQ, in order. |
| HelpCenterScreen.HasCategorySnoc | src/screens/main/HelpCenterScreen.tsx:69-75 | After appending a FAQ, a category is present iff it was already present or is the new FAQ's category. |
| HelpCenterScreen.GroupByCategory | src/screens/main/HelpCenterScreen.tsx:69-75 | The grouping `reduce` creates a group exactly for each category present. Each group is that category's FAQs in filtered order, and each category is listed once. |
| HelpCenterScreen.GroupsPartition | src/screens/main/HelpCenterScreen.tsx:69-75 | Each FAQ appears in its own category's group as often as it was filtered, and in no other group. |
| HelpCenterScreen.PressFaq | src/screens/main/HelpCenterScreen.tsx:116-117 | Pressing an FAQ expands it iff it was not expanded. No other FAQ is then expanded. |
| Accordion.Toggle | src/screens/main/CategoryScreen.tsx:46-48 | After a press, an id is expanded iff it is the pressed id and that id was not already expanded. |
| Accordion.ToggleTwice | src/screens/main/CategoryScreen.tsx:46-48 | From a collapsed state, or with the pressed id expanded, two presses restore the state. |
| Accordion.ToggleOther | src/screens/main/CategoryScreen.tsx:46-48 | Pressing an id that is not expanded makes it the expanded one. |
| CategoryScreen.VisibleSubcategories | src/screens/main/CategoryScreen.tsx:104 | Subcategories render only for the expanded category, and all of them render there. |
| CategoryScreen.ChevronOf | src/screens/main/CategoryScreen.tsx:97 | The chevron points up iff the category is expanded. |
| CategoryScreen.AtMostOneOpen | src/screens/main/CategoryScreen.tsx:11-48 | The category ids are distinct, so at most one category shows its subcategories. |
| CategoryScreen.PressOpensThenCloses | src/screens/main/CategoryScreen.tsx:44-48 | Nothing is open at first. One press opens a category and a second press closes it. |
| ProductManagementScreen.FilteredProducts | src/screens/seller/ProductManagementScreen.tsx:59-63 | The filter keeps exactly the products whose lowercased name contains the lowercased query and whose status matches the filter ('all' matches any status), in order. |
| ProductManagementScreen.EmptyQueryAllKeepsEverything | src/screens/seller/ProductManagementScreen.tsx:59-63 | The empty query with the 'all' filter keeps every product, in order. |
| ProductManagementScreen.HeaderCount | src/screens/seller/ProductManagementScreen.tsx:132 | The header counts all products, never fewer than are listed. |
| ProductManagementScreen.StatusColor | src/screens/seller/ProductManagementScreen.tsx:73-84 | active is primary, draft is secondary and out_of_stock is error. |
| ProductManagementScreen.StatusLabelAsWritten | src/screens/seller/ProductManagementScreen.tsx:104 | The chip text as written: first underscore replaced, then upper-cased, so it is as long as the status text. |
| ProductManagementScreen.StatusLabelAsWrittenKeepsUnderscore | src/screens/seller/ProductManagementScreen.tsx:104 | As written, the out-of-stock chip reads "OUT OF_STOCK". |
| ProductManagementScreen.StatusLabel | src/screens/seller/ProductManagementScreen.tsx:104 | The corrected label has no underscore and has the status's length. |
| ProductManagementScreen.OutOfStockLabelReadsAsWords | src/screens/seller/ProductManagementScreen.tsx:104 | The corrected out-of-stock chip reads "OUT OF STOCK". |
| ProductManagementScreen.OtherLabels | src/screens/seller/ProductManagementScreen.tsx:104 | The other chips read "ACTIVE" and "DRAFT". |
| ProductManagementScreen.ChipOf | src/screens/seller/ProductManagementScreen.tsx:100-105 | A product's chip shows the corrected label, with no underscore, in its status colour. |
| OrderHistoryScreen.StatusColor | src/screens/main/OrderHistoryScreen.tsx:41-52 | delivered is secondary, processing is primary, cancelled is error, and any other status is onSurfaceVariant. |
| OrderHistoryScreen.StatusLabel | src/screens/main/OrderHistoryScreen.tsx:103 | The label upper-cases the first character and keeps the rest. It has the same length, and an empty status stays empty. |
| OrderHistoryScreen.CardOf | src/screens/main/OrderHistoryScreen.tsx:103-131 | A card shows each item's unit price and the stored order total. |
| OrderHistoryScreen.FooterIsStoredTotal | src/screens/main/OrderHistoryScreen.tsx:131 | The footer is not recomputed: one item at 10 with a stored total of 12 shows 12. |
| OrderHistoryScreen.MockOrdersConsistent | src/screens/main/OrderHistoryScreen.tsx:13-34 | The sample orders' stored totals equal their item sums. Their labels read "Delivered" and "Processing". |
| Rating.Stars | src/components/common/Rating.tsx:28-31 | Exactly 5 stars are drawn, and star i is filled iff i < value. |
| Rating.FilledCount | src/components/common/Rating.tsx:31 | The number of filled stars is min(5, max(0, ceil(value))). |
| Rating.FilledCountExamples | src/components/common/Rating.tsx:31 | 4.5 fills all five stars, and a negative value fills none. |
| Rating.Disabled | src/components/common/Rating.tsx:35 | A star is disabled iff the rating is read-only. |
| Rating.Press | src/components/common/Rating.tsx:20-24 | Pressing star i reports i + 1 (1 to 5) iff the rating is not read-only and has a change handler. |
| Rating.DefaultIsReadonly | src/components/common/Rating.tsx:17-35 | With the default `readonly`, the stars are disabled and a press reports nothing. |
| CustomTabBar.GetIcon | src/components/navigation/CustomTabBar.tsx:15-30 | Home, Categories, Cart and Profile give their filled icon when focused and the outline icon otherwise. Search gives "magnify" either way. Any other route gives "circle". |
| CustomTabBar.OutlineWhenUnfocused | src/components/navigation/CustomTabBar.tsx:15-30 | For the four two-icon routes, the unfocused icon is the focused one with "-outline" appended. Every other route shows one icon. |
| CustomTabBar.ShowBadge | src/components/navigation/CustomTabBar.tsx:67 | The badge shows iff the route is Cart and the cart count is positive. |
| CustomTabBar.OnPress | src/components/navigation/CustomTabBar.tsx:39-49 | A press navigates to the route iff the tab is not focused and the event was not prevented. |
| CustomTabBar.Tabs | src/components/navigation/CustomTabBar.tsx:35-73 | There is one tab per route. A tab is focused iff its index is the navigator's index, and its icon and badge follow from that. |
| CustomTabBar.OneFocusedTab | src/components/navigation/CustomTabBar.tsx:37-49 | At most one tab is focused, the tab at the navigator's index is, and pressing it never navigates. |
| ThemeContext.Encode | src/context/ThemeContext.tsx:43 | A mode is stored as "dark" or "light". |
| ThemeContext.Decode | src/context/ThemeContext.tsx:28-29 | A stored preference means dark iff it is "dark". |
| ThemeContext.DecodeEncode | src/context/ThemeContext.tsx:28-43 | Reading back the stored preference gives the mode that was stored. |
| ThemeContext.ThemeOf | src/context/ThemeContext.tsx:49-93 | `dark` equals the mode, and the dark base theme and palette are used iff the mode is dark. |
| ThemeContext.ThemeProvider.CurrentTheme | src/context/ThemeContext.tsx:49-93 | The provided theme is the one derived from the current mode. |
| ThemeContext.ThemeProvider.constructor | src/context/ThemeContext.tsx:20-21 | The initial mode is dark iff the system scheme is "dark". |
| ThemeContext.ThemeProvider.LoadPreference | src/context/ThemeContext.tsx:23-37 | A stored preference sets dark iff it is "dark". A missing preference, or a failed read, leaves the mode unchanged. |
| ThemeContext.ThemeProvider.ToggleTheme | src/context/ThemeContext.tsx:39-47 | The mode flips even if the write fails. A successful write stores the new mode's encoding under "@theme_preference". |
| ThemeContext.ToggleThenRelaunch | src/context/ThemeContext.tsx:23-47 | After a successful toggle, the next launch's load restores the toggled mode, whatever the system scheme. |
| Text.DigitsAreDigits | src/screens/cart/CheckoutScreen.tsx:155 | Removing every `\D` match leaves only digits. |
| Text.ReplaceFirstSplit | src/screens/seller/ProductManagementScreen.tsx:104 | A string-pattern `replace` rewrites only the first occurrence and keeps everything after it, later occurrences included. |
| Text.TrimEmptyIffBlank | src/screens/cart/CheckoutScreen.tsx:68 | `trim()` gives the empty string exactly when every character is ECMAScript whitespace. |

## Left out

- Rendering, styles, animation and navigation. A handler's navigation call is at most a returned destination (`Destination`, the tab bar's target). `handleBack` in the checkout is a plain `goBack`, so the wizard has no backward step.
- The cart store's behaviour (merging lines, zero quantities, what `getItemCount` counts) is not part of this model. Only the calls made to it are recorded, and its total is a parameter.
- Timers, the random order id and the `Date.now()` user id are parameters or left out. The simulated delays are dropped.
- Concurrency between overlapping asynchronous handlers is left out: each handler runs to completion. In particular, the theme toggle reads the mode from the last render.
- Floating-point money (`toFixed`, kobo ÷ 100) and locale dates are left out. Prices are `real`, or integers where the source uses kobo.
- JavaScript `Number()` parsing is left out: `isNumber` is a parameter.
- Case mapping covers ASCII letters only. Lengths count Dafny characters, not UTF-16 code units.
- The key order of the grouped FAQs object is left out. Categories are listed in the order they are first met, which is what `Object.entries` gives for these non-numeric keys.
- AddProductScreen's submit failure branch is left out: the `try` holds no awaited call, so it cannot throw.
- `formatExpiryDate` and `formatPhoneNumber` are modelled with their properties, but the checkout inputs never call them. Expiry and phone are stored as typed.
- The parts of the theme record that do not depend on the mode are left out: palette colours, typography and elevation values.
- The `useTheme` guard that throws outside a provider is left out.
- The privacy screen's three button actions (change password, download data, delete account) are empty placeholders, so the model gives them no behaviour.
- ProductDetailScreen.ProductDetail.Minus: the button is disabled at quantity 1. The model still allows the press, which leaves the quantity at 1.

## Findings

| source | as written | input that shows it | evidently intended | confidence | as-written member | corrected member |
|---|---|---|---|---|---|---|
| src/screens/seller/ProductManagementScreen.tsx:104 | `replace('_', ' ')` with a string pattern replaces only the first underscore before upper-casing | a product with status `out_of_stock` shows "OUT OF_STOCK" | every underscore becomes a space: "OUT OF STOCK" | not executed | ProductManagementScreen.StatusLabelAsWrittenKeepsUnderscore | ProductManagementScreen.OutOfStockLabelReadsAsWords |
