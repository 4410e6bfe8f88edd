# FoodHub storefront client: a verified model

FoodHub is a Next.js food-ordering storefront. Customers browse meals, filter them,
fill a cart and review what they ordered. Providers manage their menu, move orders
along a fixed status flow and read a small dashboard. A route guard sends every
signed-in role back to its own area. This project models the client-side logic
behind those screens in Dafny and proves what each piece promises:

- `Cart` (cart.dfy): the cart context. It holds a list of lines keyed by meal id and
  the four updates (add, remove, set quantity, clear). It derives the item count and
  the price total. It runs the two storage effects that restore the list on mount
  and mirror it into browser storage afterwards. The provider is a class whose
  methods update `items` and `storage`. Functions on the list specify those methods.
- `ProviderOrders` (orders.dfy): the order page. That covers the status flow and its
  partial successor, the status filter, the controls of an order card, and the
  `updating` mark around a status change.
- `ProviderDashboard` (dashboard.dfy): the order and menu statistics, the recent
  orders prefix and the colour of a status badge.
- `RouteGuard` (proxy.dfy): the request guard, its rule chain and its path matcher.
- `Navbar` (navbar.dfy): the dashboard link and caption, the profile initials, the
  cart badge and the cart item count caption.
- `MealFilters` (mealfilters.dfy): the filter record handlers and the category list
  load.
- `Reviews` (reviewform.dfy): the star picker and the submit guards of the review
  form.
- `Registration` (registerform.dfy): the two steps of the sign-up form and its
  role-dependent payload.
- `MenuManagement` (menupage.dfy): the provider menu page. That covers the form state,
  the request for a save, the edit round trip, the delete flow and the category
  default.
- `FeaturedMeals` (featured.dfy): the home page's four alphabetically first meals. The
  meals are sorted in place in an array by insertion sort. Adding a featured meal
  goes through the cart.
- `Types` and `Text` (types.dfy, text.dfy): the shared enumerations and the JavaScript
  string built-ins the pages rely on. Those are `parseInt`, `toString`, `trim`,
  `split(" ")` and `toUpperCase`.

The server, the browser storage, the JWT decoder and the JSON codec are outside the
model. Each appears as a parameter: the response a fetch returned, the stored
string, or an abstract function. Prices and quantities are mathematical integers.

`clearCart` removes the cart's storage key, but the save effect then runs again for
the new empty list and writes `[]` back under the key; `Cart.CartStore.ClearCart`
states both steps.

## Model

| member | source | states |
|---|---|---|
| Types.NamesInjective | src/types/index.ts:2-3 | distinct roles, and distinct order statuses, have distinct wire names |
| Text.ParseIntOfIntToString | src/app/provider/menu/page.tsx:141 | parseInt reads back the decimal text of every integer, negative ones included |
| Text.NatToStringValue | src/app/provider/menu/page.tsx:203 | the digits written for a natural number have that number as their value |
| Text.ParseInt | src/app/provider/menu/page.tsx:141 | parseInt is NaN exactly when no digit follows the leading whitespace and an optional sign |
| Text.TrimEmptyIffBlank | src/modules/reviews/ReviewForm.tsx:31 | a string trims to empty exactly when it is all whitespace |
| Text.SplitCount | src/components/layout/Navbar.tsx:89 | split on a space gives one more piece than there are spaces |
| Text.Split | src/components/layout/Navbar.tsx:89 | split gives at least one piece, and no piece contains a space |
| Text.SplitJoin | src/components/layout/Navbar.tsx:89 | joining the pieces of split(" ") with single spaces gives back the original string |
| Text.JoinSplit | src/components/layout/Navbar.tsx:89 | space-free words joined by single spaces split back into exactly those words, so split(" ") is the only space-free list whose join is the string |
| Text.Upper | src/components/layout/Navbar.tsx:89 | upper-casing keeps the length and maps each lower-case ASCII letter to the letter 32 code points below it (its capital), every other character to itself |
| Cart.Find | src/app/context/CartContext.tsx:54 | the lookup is empty exactly when no line has the id; otherwise the line found is in the cart and has that id |
| Cart.FindFirst | src/app/context/CartContext.tsx:70-72 | the line found is the first with the id: no earlier line has it, so with duplicate ids (a restored list) the toast names the first such line |
| Cart.FindUnique | src/app/context/CartContext.tsx:54 | with one line per meal, looking up the id of line k finds line k |
| Cart.MapQuantity | src/app/context/CartContext.tsx:57-61 | the map keeps the length, changes the quantity of the matching lines only (+1 or set), and leaves every other line as it was |
| Cart.AddItem | src/app/context/CartContext.tsx:52-65 | an absent meal is appended as one line of quantity 1 after the old lines; a present one has its line(s) bumped by 1 and every other line kept |
| Cart.RemoveItem | src/app/context/CartContext.tsx:74 | the filter never grows the cart, leaves no line with the id, and keeps only lines that were there |
| Cart.UpdateItems | src/app/context/CartContext.tsx:78-88 | a quantity below 1 leaves no line with the id and only old lines; otherwise the length is kept and exactly the matching lines get quantity q |
| Cart.TotalItems | src/app/context/CartContext.tsx:95 | the item count of a cart with no negative price or quantity is never negative |
| Cart.TotalPrice | src/app/context/CartContext.tsx:96-99 | the total of a cart with no negative price or quantity is never negative |
| Cart.AddExisting | src/app/context/CartContext.tsx:54-61 | adding a meal already in the cart bumps that one line by exactly 1 and changes no other line or the length |
| Cart.AddNew | src/app/context/CartContext.tsx:63-64 | adding a new meal appends exactly one line of quantity 1 after the unchanged old lines |
| Cart.AddValid | src/app/context/CartContext.tsx:52-65 | adding keeps the invariant: at most one line per meal, and every quantity at least 1 |
| Cart.AddTotals | src/app/context/CartContext.tsx:95-99 | adding raises the item count by 1 and the total by the price of the affected meal |
| Cart.AddTimesFromEmpty | src/app/context/CartContext.tsx:52-65 | n adds of one meal to an empty cart give a single line of quantity n |
| Cart.RemoveAbsent | src/app/context/CartContext.tsx:74 | removing an id that is not in the cart changes nothing |
| Cart.RemoveAppend | src/app/context/CartContext.tsx:74 | removal distributes over concatenation, so the kept lines keep their order |
| Cart.RemoveAt | src/app/context/CartContext.tsx:68-76 | in a cart with one line per meal, removing the meal of line k cuts out exactly line k |
| Cart.RemoveValid | src/app/context/CartContext.tsx:68-76 | removing keeps the one-line-per-meal and positive-quantity invariant |
| Cart.RemoveTotals | src/app/context/CartContext.tsx:95-99 | removing line k takes its quantity off the item count and its price times quantity off the total |
| Cart.TotalsAppend | src/app/context/CartContext.tsx:95-99 | both totals add up over concatenation |
| Cart.UpdateBelowOneRemoves | src/app/context/CartContext.tsx:79-82 | a quantity below 1 has exactly the effect of removing the meal |
| Cart.UpdateSets | src/app/context/CartContext.tsx:83-87 | a quantity of at least 1 is set exactly on the matching line, other lines are unchanged, and an absent id changes nothing |
| Cart.UpdateValid | src/app/context/CartContext.tsx:78-88 | updating a quantity keeps the invariant |
| Cart.TotalItemsAtLeastLines | src/app/context/CartContext.tsx:95 | with positive quantities the item count is at least the number of lines |
| Cart.Scenario | src/app/context/CartContext.tsx:52-99 | a meal at 100 added twice and one at 50 added once give 3 items for 250; removing the second gives 2 for 200; setting the first to 0 empties the cart |
| Cart.Restore | src/app/context/CartContext.tsx:33-43 | a missing or empty saved value, or one that does not parse, leaves the list; a value that parses replaces it |
| Cart.Get | src/app/context/CartContext.tsx:34 | reading the slot gives its value exactly when the key is stored |
| Cart.CartStore.constructor | src/app/context/CartContext.tsx:29-30 | the cart starts empty and not loaded |
| Cart.CartStore.SaveEffect | src/app/context/CartContext.tsx:46-50 | once loaded, the encoded list is written under the cart key; before that, storage is untouched |
| Cart.CartStore.Load | src/app/context/CartContext.tsx:33-43 | after mounting the cart is loaded, holds the restored list, and that list is written back under the key |
| Cart.CartStore.AddToCart | src/app/context/CartContext.tsx:52-66 | the new list is the add of the old one, the invariant is kept, the toast says whether the meal was there, and the list is saved once loaded |
| Cart.CartStore.RemoveFromCart | src/app/context/CartContext.tsx:68-76 | the new list is the removal from the old one, the invariant is kept, there is a toast only when the meal was there, and the list is saved once loaded |
| Cart.CartStore.UpdateQuantity | src/app/context/CartContext.tsx:78-88 | the new list is the update of the old one, below 1 by way of removal with its toast; the invariant is kept and the list is saved once loaded |
| Cart.CartStore.ClearCart | src/app/context/CartContext.tsx:90-93 | the list is empty with zero totals; the key is removed, then rewritten with the empty list once loaded; no other key changes |
| Cart.ClearThenReload | src/app/context/CartContext.tsx:90-93 | clearing and then mounting a new cart on the same storage gives an empty loaded cart, whether or not the cart was loaded when cleared |
| ProviderOrders.IndexOf | src/app/provider/orders/page.tsx:118 | indexOf is -1 exactly when the status is missing; otherwise it is the first position holding it |
| ProviderOrders.NextStatus | src/app/provider/orders/page.tsx:117-121 | PLACED, PREPARING and READY have the next flow state as successor; DELIVERED and CANCELLED have none |
| ProviderOrders.FlowIndexValues | src/app/provider/orders/page.tsx:56 | the flow positions are 0 to 3 in order, and CANCELLED is not on the flow |
| ProviderOrders.NextStatusIsNextIndex | src/app/provider/orders/page.tsx:117-121 | a successor sits at the very next flow position and is never CANCELLED |
| ProviderOrders.AdvanceFromIndex | src/app/provider/orders/page.tsx:117-121 | k successor steps from flow position i reach position i + k, or null past the end |
| ProviderOrders.AdvanceEndsWithinThree | src/app/provider/orders/page.tsx:117-121 | following successors ends in null after at most four steps, and PLACED reaches DELIVERED in three |
| ProviderOrders.KeepMembers | src/app/provider/orders/page.tsx:125 | the filtered orders are exactly the orders with the chosen status |
| ProviderOrders.KeepAppend | src/app/provider/orders/page.tsx:125 | filtering distributes over concatenation, so it keeps the original order |
| ProviderOrders.KeepIdempotent | src/app/provider/orders/page.tsx:125 | filtering twice by a status is filtering once |
| ProviderOrders.FilterSpec | src/app/provider/orders/page.tsx:123-125 | "ALL" shows the list unchanged; a status shows exactly the orders with it |
| ProviderOrders.ForwardButton | src/app/provider/orders/page.tsx:203-216 | the "Mark" button exists exactly when the status has a successor and names that successor |
| ProviderOrders.ForwardOfferedIff | src/app/provider/orders/page.tsx:171-216 | the forward button is shown exactly for PLACED, PREPARING and READY |
| ProviderOrders.SelectOptions | src/app/provider/orders/page.tsx:253-262 | the select lists five options without repetition, every status among them |
| ProviderOrders.EveryStatusListed | src/app/provider/orders/page.tsx:254-261 | the flow followed by CANCELLED covers every status |
| ProviderOrders.Keep | src/app/provider/orders/page.tsx:125 | the filter never grows the list and every order it keeps has the chosen status |
| ProviderOrders.PatchNotice | src/app/provider/orders/page.tsx:103-111 | the toast is a success exactly when the PATCH was ok, and a rejection shows the server's message when it has one |
| ProviderOrders.AfterFetch | src/app/provider/orders/page.tsx:77-79 | a successful body replaces the list by its data; a failed body or a throw keeps the old list |
| ProviderOrders.FetchNotice | src/app/provider/orders/page.tsx:80-81 | a toast exactly when the fetch threw, and it says "Failed to fetch orders"; an unsuccessful body is silent |
| ProviderOrders.OrdersPage.constructor | src/app/provider/orders/page.tsx:59-62 | no orders, loading, nothing updating, filter "ALL" |
| ProviderOrders.OrdersPage.SetFilter | src/app/provider/orders/page.tsx:123-143 | the filter becomes the chosen one, and the visible cards are exactly the orders passing it |
| ProviderOrders.OrdersPage.FetchOrders | src/app/provider/orders/page.tsx:68-85 | a successful body replaces the list, anything else keeps it; the toast is the fetch toast; loading ends |
| ProviderOrders.OrdersPage.UpdateStatus | src/app/provider/orders/page.tsx:87-115 | the PATCH goes to the order's path with the new status; the toast follows the answer; only an ok answer refetches, with the refetch's own toast; the updating mark is cleared on every path; afterwards no card has its controls disabled |
| ProviderDashboard.PendingOf | src/app/provider/dashboard/page.tsx:69-71 | the pending orders are input orders that are PLACED or PREPARING, and never more than the input |
| ProviderDashboard.DeliveredOf | src/app/provider/dashboard/page.tsx:74 | an order is kept exactly when it is in the input and DELIVERED, and the result is never longer than the input |
| ProviderDashboard.PendingCount | src/app/provider/dashboard/page.tsx:69-71 | the pending count is the number of PLACED orders plus the number of PREPARING ones, at most the order count |
| ProviderDashboard.RevenueAppend | src/app/provider/dashboard/page.tsx:73-75 | revenue adds up over concatenation |
| ProviderDashboard.RevenueOneOrder | src/app/provider/dashboard/page.tsx:73-75 | one more order adds its total to the revenue if DELIVERED, and nothing otherwise |
| ProviderDashboard.RevenueWithoutDelivered | src/app/provider/dashboard/page.tsx:73-75 | with no DELIVERED order the revenue is 0 |
| ProviderDashboard.RecentIsPrefix | src/app/provider/dashboard/page.tsx:84 | the recent list is the first min(5, n) orders |
| ProviderDashboard.LoadDashboard | src/app/provider/dashboard/page.tsx:48-90 | loading always ends; a throw keeps the statistics and the recent list; otherwise the counts are the list lengths, pending is at most the total, and the recent list is a prefix of at most five orders |
| ProviderDashboard.LoadedStats | src/app/provider/dashboard/page.tsx:48-90 | two readable responses set every statistic from the orders and meals, pending at most total, revenue over DELIVERED only, the recent prefix set, loading ended |
| ProviderDashboard.MissingDataIsZero | src/app/provider/dashboard/page.tsx:65-66 | a body without data reads as an empty list, so every statistic is 0 |
| ProviderDashboard.ThrewKeepsState | src/app/provider/dashboard/page.tsx:85-89 | a fetch that throws leaves the statistics and the recent list as they were |
| ProviderDashboard.StatusColor | src/app/provider/dashboard/page.tsx:92-101 | the gray default is given exactly to strings that are none of the five statuses |
| ProviderDashboard.StatusColorDistinct | src/app/provider/dashboard/page.tsx:92-101 | the five statuses get five different colours, none of them the gray that every other string gets |
| RouteGuard.NoRoleGoesToLogin | proxy.ts:20-28 | no token, an empty token, or one that does not decode sends the request to /login |
| RouteGuard.Proxy | proxy.ts:20-47 | a redirect to /login exactly when there is no role; every redirect goes to /login or one of the three homes; a path outside the three areas passes for every role |
| RouteGuard.RoleRules | proxy.ts:33-47 | each role is redirected to its home exactly on the other roles' path prefixes and passes (next) on every other path, and a request with a role is never sent to /login |
| RouteGuard.OtherRolePasses | proxy.ts:47 | a role outside the three known ones passes every path |
| RouteGuard.DashboardsPrefix | proxy.ts:33-45 | "/dashboards" passes for a provider and redirects an admin |
| RouteGuard.HomePasses | proxy.ts:33-47 | each role's home passes the guard for that role |
| RouteGuard.NoRedirectLoop | proxy.ts:20-56 | every redirect target is either outside the matcher or passes the guard for the same token |
| Navbar.DashboardLink | src/components/layout/Navbar.tsx:73-85 | /login without a user; the admin and provider dashboards for those roles; /dashboard for everything else |
| Navbar.DashboardCaption | src/components/layout/Navbar.tsx:154-155 | each caption is shown exactly for its role, "My Orders" for all others |
| Navbar.DashboardLinkPasses | src/components/layout/Navbar.tsx:73-85 | the link for a known role is that role's home, which passes the route guard for the same token |
| Navbar.FirstsSpec | src/components/layout/Navbar.tsx:89 | one letter per non-empty word, and the letters are the first letters of the non-empty words (membership; order is in FirstsAppend) |
| Navbar.FirstsAppend | src/components/layout/Navbar.tsx:89 | first letters of a concatenation of word lists are those of the first list followed by those of the second, so the initials keep the word order |
| Navbar.FirstsOne | src/components/layout/Navbar.tsx:89 | one word contributes its first letter, or nothing when it is empty (`undefined` joins as nothing) |
| Navbar.FirstsOfWords | src/components/layout/Navbar.tsx:89 | for non-empty words the i-th letter is the first letter of the i-th word |
| Navbar.Initials | src/components/layout/Navbar.tsx:87-90 | "U" exactly when there is no name or it is empty; otherwise one letter per non-empty piece of the split |
| Navbar.InitialsBounds | src/components/layout/Navbar.tsx:87-90 | "U" with no name; otherwise at most one letter per word and no space |
| Navbar.InitialsOfTwoWords | src/components/layout/Navbar.tsx:87-90 | a two-word name gives the two capitalised first letters |
| Navbar.InitialsOfWords | src/components/layout/Navbar.tsx:87-90 | a name of non-empty space-free words joined by single spaces has as initials the capitalised first letter of each word, in word order |
| Navbar.Badge | src/components/layout/Navbar.tsx:135 | "9+" exactly above nine, otherwise one or two characters |
| Navbar.BadgeReadsBack | src/components/layout/Navbar.tsx:135 | up to nine the badge is the count's decimal text |
| Navbar.ItemWord | src/components/layout/Navbar.tsx:265 | "item" exactly for one, "items" otherwise |
| MealFilters.SearchChange | src/modules/meals/MealFilters.tsx:48-50 | sets the search and keeps every other field |
| MealFilters.CategoryChange | src/modules/meals/MealFilters.tsx:52-54 | sets the category and keeps every other field |
| MealFilters.PriceChange | src/modules/meals/MealFilters.tsx:56-61 | 'min' sets only the minimum, 'max' only the maximum, and every other field is kept |
| MealFilters.SortChange | src/modules/meals/MealFilters.tsx:117 | sets the sort order and keeps every other field |
| MealFilters.ClearFilters | src/modules/meals/MealFilters.tsx:63-71 | the defaults: no search, "All", no prices, "featured" |
| MealFilters.ClearPriceBadge | src/modules/meals/MealFilters.tsx:239-241 | both prices are cleared and every other field is kept |
| MealFilters.HasActiveFilters | src/modules/meals/MealFilters.tsx:73-76 | the filters are inactive exactly when they equal the cleared record apart from the sort order |
| MealFilters.SortDoesNotActivate | src/modules/meals/MealFilters.tsx:73-76 | changing the sort never makes the filters active or inactive |
| MealFilters.ClearedIsInactive | src/modules/meals/MealFilters.tsx:63-76 | nothing is active after clearing, and the inactive records are exactly the defaults with any sort order |
| MealFilters.BadgeClears | src/modules/meals/MealFilters.tsx:230-241 | the price badge undoes any price input; clearing search, prices and category gives the defaults with the sort kept, and nothing active |
| MealFilters.LoadCategories | src/modules/meals/MealFilters.tsx:33-43 | a successful body gives "All" followed by the fetched categories; anything else keeps the list |
| MealFilters.AllComesFirst | src/modules/meals/MealFilters.tsx:28-38 | "All" comes first in the initial list and stays first across a load, with the fetched categories after it in order |
| Reviews.Rejection | src/modules/reviews/ReviewForm.tsx:26-43 | the submit goes through exactly with a rating, a non-blank comment and a token; otherwise the first failing guard names the toast |
| Reviews.ResponseNotice | src/modules/reviews/ReviewForm.tsx:60-69 | success exactly for a successful body; a failure shows the server's message when it has one |
| Reviews.LitStarsClamp | src/modules/reviews/ReviewForm.tsx:82-97 | the lit stars among 1..k are the first `shown` of them, clamped to 0..k |
| Reviews.LitStarsShown | src/modules/reviews/ReviewForm.tsx:93 | without hover exactly `rating` stars are lit; while hovering exactly the stars up to the hovered one are |
| Reviews.StarFilledIffLit | src/modules/reviews/ReviewForm.tsx:91-96 | each of the five stars is drawn filled exactly when it is among the lit ones |
| Reviews.RatingCaption | src/modules/reviews/ReviewForm.tsx:102 | "n out of 5 stars" for a positive rating, "Click to rate" otherwise |
| Reviews.ReviewForm.constructor | src/modules/reviews/ReviewForm.tsx:18-21 | no rating, no hover, empty comment, not submitting |
| Reviews.ReviewForm.ClickStar | src/modules/reviews/ReviewForm.tsx:86 | the rating becomes the clicked star |
| Reviews.ReviewForm.EnterStar | src/modules/reviews/ReviewForm.tsx:87 | the hovered star becomes the entered star |
| Reviews.ReviewForm.LeaveStar | src/modules/reviews/ReviewForm.tsx:88 | nothing is hovered |
| Reviews.ReviewForm.SetComment | src/modules/reviews/ReviewForm.tsx:113 | the comment becomes the typed text |
| Reviews.ReviewForm.HandleSubmit | src/modules/reviews/ReviewForm.tsx:23-73 | a request exactly when no guard stops the submit, with the untrimmed comment; the toast of the guard or the answer; rating and comment reset exactly on success; `submitting` untouched by the two early returns and ended otherwise |
| Reviews.ReviewForm.Send | src/modules/reviews/ReviewForm.tsx:36-72 | no token means no request and the login toast; otherwise the POST and the answer's toast, the reset on success, and `submitting` ended on every path |
| Reviews.NoRequestWithoutInput | src/modules/reviews/ReviewForm.tsx:26-43 | no rating, a blank comment or a missing token always stops the submit |
| Registration.NextStepRejection | src/modules/auth/RegisterForm.tsx:74-84 | step two is reached exactly with all four fields filled and matching passwords; an empty field gives "Please fill all fields", and filled fields with different passwords give "Passwords don't match" |
| Registration.PayloadOf | src/modules/auth/RegisterForm.tsx:44-50 | the payload carries the account fields and the role name, and the shop fields exactly for a provider |
| Registration.PayloadShape | src/modules/auth/RegisterForm.tsx:44-50 | a customer's body has the four account keys; a provider's has the three shop keys besides |
| Registration.ResponseNotice | src/modules/auth/RegisterForm.tsx:60-68 | success exactly for a successful body; a failure shows the server's message when it has one |
| Registration.ContinuedImpliesMatching | src/modules/auth/RegisterForm.tsx:36-39 | passing step one rules out the submit's password guard |
| Registration.RegisterForm.constructor | src/modules/auth/RegisterForm.tsx:15-29 | step one, customer, not loading, every field empty |
| Registration.RegisterForm.SetRole | src/modules/auth/RegisterForm.tsx:107 | the role becomes the chosen one |
| Registration.RegisterForm.NextStep | src/modules/auth/RegisterForm.tsx:74-84 | the toast is the step-one rejection, and the form moves to step two exactly when there is none |
| Registration.RegisterForm.Back | src/modules/auth/RegisterForm.tsx:207 | the form returns to step one |
| Registration.RegisterForm.HandleSubmit | src/modules/auth/RegisterForm.tsx:33-72 | mismatched passwords send nothing and leave loading alone; otherwise the POST of the payload, the answer's toast, /login exactly on success, and loading ended |
| MenuManagement.EmptyForm | src/app/provider/menu/page.tsx:189-197 | every text field empty, the category the first fetched one or empty |
| MenuManagement.EditForm | src/app/provider/menu/page.tsx:199-209 | the meal's fields, the price as decimal text, a missing description or image as empty |
| MenuManagement.PayloadOf | src/app/provider/menu/page.tsx:139-145 | the form's fields, the price parsed, an empty image as null |
| MenuManagement.SaveRequest | src/app/provider/menu/page.tsx:127-146 | PUT to the meal's path while editing, POST to the meals path otherwise, with the form's payload |
| MenuManagement.SaveNotice | src/app/provider/menu/page.tsx:148-159 | success exactly for an ok answer; a failure shows the server's message when it has one |
| MenuManagement.MealsNotice | src/app/provider/menu/page.tsx:90-96 | no toast exactly for a successful body; "Failed to fetch meals" for an unsuccessful one and "Failed to fetch menu" for a throw |
| MenuManagement.DefaultCategory | src/app/provider/menu/page.tsx:112-114 | the intended rule: only the category can change, and only to the first fetched one when none was chosen |
| MenuManagement.DefaultCategoryAsWritten | src/app/provider/menu/page.tsx:110-114 | as the mount-time closure makes it behave: a successful non-empty list always sets the first category, whatever was chosen; nothing else changes |
| MenuManagement.EditRoundTrip | src/app/provider/menu/page.tsx:199-209 | saving an unchanged edit form sends the meal's own name, price, description and category, and its image unless it was empty |
| MenuManagement.ResetFormSubmittable | src/app/provider/menu/page.tsx:315 | after a reset, submit is enabled exactly when not submitting and the first category has a non-empty id |
| MenuManagement.DefaultCategoryKeepsChoice | src/app/provider/menu/page.tsx:112 | under the intended rule a category already chosen is never overwritten by the fetch |
| MenuManagement.ChosenCategoryOverwritten | src/app/provider/menu/page.tsx:68-71 | a form holding "c2" and the list [c1, c2] end with "c1" as written and "c2" under the intended rule |
| MenuManagement.DefaultCategoryAgreesWhenUnchosen | src/app/provider/menu/page.tsx:112 | with no category chosen the code as written and the intended rule give the same form |
| MenuManagement.MenuPage.constructor | src/app/provider/menu/page.tsx:52-66 | empty lists, loading, not submitting, not editing, dialog closed, empty form |
| MenuManagement.MenuPage.FetchMenuData | src/app/provider/menu/page.tsx:73-100 | the meals follow the fetch result, the toast is the meals toast, and loading ends |
| MenuManagement.MenuPage.FetchCategories | src/app/provider/menu/page.tsx:102-119 | a successful body replaces the categories, and the form gets the category the code as written gives it |
| MenuManagement.MenuPage.ResetForm | src/app/provider/menu/page.tsx:189-197 | the form becomes the empty form for the current categories |
| MenuManagement.MenuPage.OpenEditDialog | src/app/provider/menu/page.tsx:199-209 | editing the meal, the form filled from it, the dialog open |
| MenuManagement.MenuPage.OpenAddDialog | src/app/provider/menu/page.tsx:211-215 | not editing, an empty form, the dialog open; submit is then blocked exactly when submitting or when there is no first category with a non-empty id |
| MenuManagement.MenuPage.SetDialogOpen | src/app/provider/menu/page.tsx:233 | the dialog is open exactly as asked |
| MenuManagement.MenuPage.HandleSubmit | src/app/provider/menu/page.tsx:121-163 | the save request of the form; its toast; on success a reset form, a refetch with its toast, the dialog closed and editing ended; otherwise all of these unchanged; submitting ends |
| MenuManagement.MenuPage.HandleDelete | src/app/provider/menu/page.tsx:165-187 | nothing without confirmation; otherwise the DELETE to the meal's path, and a refetch with its toast exactly on success |
| MenuManagement.EditThenSave | src/app/provider/menu/page.tsx:199-209 | opening a meal for edit and saving sends a PUT to its path with its own price, name and category |
| FeaturedMeals.SortByName | src/modules/homepage/FeaturedMeals.tsx:40-41 | the array ends sorted by name and is a permutation of what it held |
| FeaturedMeals.InsertAt | src/modules/homepage/FeaturedMeals.tsx:41 | one insertion step extends the sorted prefix by one and permutes the array |
| FeaturedMeals.SwapDown | src/modules/homepage/FeaturedMeals.tsx:41 | exchanges two neighbours and permutes the array |
| FeaturedMeals.SelectFeatured | src/modules/homepage/FeaturedMeals.tsx:40-42 | min(4, n) meals, sorted by name, all from the input, none after a meal left out |
| FeaturedMeals.SortedPrefix | src/modules/homepage/FeaturedMeals.tsx:42 | a prefix of a sorted list is sorted, part of the list, and before everything else in it |
| FeaturedMeals.FeaturedSection.constructor | src/modules/homepage/FeaturedMeals.tsx:33-50 | no meals, loading |
| FeaturedMeals.FeaturedSection.FetchMeals | src/modules/homepage/FeaturedMeals.tsx:33-50 | a successful body gives the featured selection of its data: min(4, n) of its meals in name order, none after a meal left out (none for a missing list); anything else keeps the list; loading ends |
| FeaturedMeals.CartPayload | src/modules/homepage/FeaturedMeals.tsx:55-66 | the meal's own fields, and its restaurant or "Local Restaurant" |
| FeaturedMeals.AddFeaturedToCart | src/modules/homepage/FeaturedMeals.tsx:55-66 | a featured meal not yet in the cart becomes its last line with quantity 1 and a non-empty provider name |

## Left out

- Browser storage, `fetch`, cookies, the router, toasts and `console` are not modelled as I/O. Their inputs are parameters: a stored value, a response, a token. Their visible effects are results: a request, a toast, a navigation target. `console.error` messages (a failed categories, dashboard or featured fetch) are dropped.
- The JSON codec of the cart and the JWT decoder of the guard are abstract functions. A saved value that parses to something other than a list of lines is not modelled.
- On the orders page, a successful body without `data` sets the list to `undefined`, and the next render throws: at `filteredOrders.length` under the filter "ALL", in `orders.filter` under a status. The model's orders body always carries a list.
- On the menu page, a successful categories body without `data` throws on `data.data.length` and is caught. The model's categories body always carries a list.
- Refetches that are started but not awaited are modelled as if they finished before the next step. That is the `fetchOrders()` after a PATCH and the `fetchMenuData()` after a save or delete. Concurrent React updates and their interleavings are left out.
- Text.ParseInt: does not model the hexadecimal prefix `0x`, or numbers too large for a double.
- Text.Trim: uses ten common whitespace characters, not the full Unicode set that `trim` removes.
- Text.Upper: upper-cases ASCII letters only.
- Navbar.Firsts: a Dafny `char` is a Unicode scalar value, while `n[0]` is a UTF-16 code unit; for a word starting outside the Basic Multilingual Plane the code yields a lone surrogate and the model the whole character.
- FeaturedMeals.SortByName: `localeCompare` is an abstract total preorder on names, and sort stability is not stated.
- `checkAuth` and `handleLogout` in the navbar are storage and network I/O and are not modelled.
- The order page's colour map and the line subtotals of an order card are display only.
- HTML `required` attributes, the implicit form submission and the loading markup are not modelled.
- Prices are whole numbers. Floating-point prices and totals are not modelled.

## Findings

| source | as written | input that shows it | evidently intended | confidence | as-written member | corrected member |
|---|---|---|---|---|---|---|
| src/app/provider/menu/page.tsx:112 | the mount effect (dependencies `[]`) runs the `fetchCategories` of the first render, whose `formData.categoryId` is always "", so a successful non-empty list overwrites the chosen category | the edit dialog is opened (form category "c2") before the categories answer [c1, c2]; the form ends with "c1" | keep a category already chosen and preselect the first one only when none is | not executed | MenuManagement.DefaultCategoryAsWritten, MenuManagement.ChosenCategoryOverwritten | MenuManagement.DefaultCategory, MenuManagement.DefaultCategoryKeepsChoice |
