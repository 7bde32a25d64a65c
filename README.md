# GlowUp Salon front end — a Dafny model

This project models the logic in the salon web app's React front end: the
admin console (orders, bookings, the notification shell, enquiries, the
dashboard) and the storefront (cart, checkout, navigation bar, services,
product cards). Every piece is a filter, map, sum or count over a list of
plain records, or a handler that changes a page's state one step at a time.

The model has these parts:

- **Values.** Records are datatypes in `Records`. The generic list
  operations are in `Seqs` and the string operations in `Text`. A field the
  source reads through `?.` or `||` is an `Option`; dates are integers,
  prices and quantities naturals, statuses strings.
- **Page state.** A page whose handlers update React state is a class. Its
  state variables are fields, and each handler is a method whose
  `modifies` names the fields it sets.
- **The server.** The server is `Backend.Store`, a class holding the
  bookings, orders and enquiries. The pages talk to two hosts, and the
  model treats them as this one store (see "Left out"). A `PUT { status }` sets the status of the
  records with that id. A `GET` returns the collection. Each request's
  success is a boolean parameter of the method that makes it.
- **Pure aggregates.** The dashboard, the totals and the filters are
  functions. The lemmas beside them prove the properties the pages rely on:
  - sub-sequence and exact membership of a filter;
  - metric bounds;
  - sums over concatenations;
  - a stable sort that is newest first;
  - top-five selection;
  - idempotent and "nothing else changes" updates;
  - the status progression of an order.

`clearNotifications` issues its writes through `Promise.all`. The model
issues the same writes one after another, in a loop. Since each write
touches only its own record, the final store is the same.

## Model

| member | source | states |
|---|---|---|
| Records.PendingBookings | salon-fe/src/admin/AdminLayout.jsx:20 | the result is an order-preserving sub-sequence of the fetched bookings; it holds only `Pending` bookings and every `Pending` booking |
| Records.NewEnquiries | salon-fe/src/admin/AdminLayout.jsx:31 | the result is an order-preserving sub-sequence of the fetched enquiries; it holds only `New` enquiries and every `New` enquiry |
| Records.SetBookingStatus | salon-fe/src/admin/Bookings.jsx:50-52 | same length; each booking with the id has the new status, and every other booking is unchanged |
| Records.SetOrderStatus | salon-fe/src/admin/Orders.jsx:43-47 | same length; each order whose `_id` is the id has the new status, and every other order is unchanged |
| Records.SetEnquiryStatus | salon-fe/src/admin/AdminEnquiries.jsx:39 | same length; each enquiry with the id has the new status, and every other enquiry is unchanged |
| Backend.Store.PutBookingStatus | salon-fe/src/admin/Bookings.jsx:55 | the store's bookings become the status rewrite of the old ones; the orders and enquiries are untouched |
| Backend.Store.PutOrderStatus | salon-fe/src/admin/Orders.jsx:43-47 | the store's orders become the status rewrite of the old ones; nothing else changes |
| Backend.Store.PutEnquiryStatus | salon-fe/src/admin/AdminEnquiries.jsx:39 | the store's enquiries become the status rewrite of the old ones; nothing else changes |
| Orders.NextStatus | salon-fe/src/admin/Orders.jsx:37-39 | the written status is `Processing` or `Delivered`, and it is `Processing` exactly when the current status is `Pending` |
| Orders.AdvanceIsOneStep | salon-fe/src/admin/Orders.jsx:37-39 | from Pending or Processing, a press moves the order exactly one place along Pending, Processing, Delivered |
| Orders.NextIsNeverPending | salon-fe/src/admin/Orders.jsx:37-39 | from any status, including unknown ones, a press never writes `Pending` |
| Orders.NeverBackToPending | salon-fe/src/admin/Orders.jsx:180-189 | after one or more presses, each made only while the button is shown, the order is Processing or Delivered and never Pending again |
| Orders.DeliveredAfterTwo | salon-fe/src/admin/Orders.jsx:37-39 | two or more presses deliver any order |
| Orders.DeliveredStaysDelivered | salon-fe/src/admin/Orders.jsx:180 | a delivered order has no button, so presses leave it delivered |
| Orders.ButtonLabel | salon-fe/src/admin/Orders.jsx:185-187 | the caption is one of the two; it reads "Start Processing" exactly when pressing the button writes `Processing`, and "Mark Delivered" exactly when it writes `Delivered` |
| Orders.FilteredOrders | salon-fe/src/admin/Orders.jsx:56-67 | the result is an order-preserving sub-sequence of the orders; every kept order passes the search and date tests, and every order that passes both is kept |
| Orders.DateBoundsMeaning | salon-fe/src/admin/Orders.jsx:60-65 | with `from` set, a passing order has a date no earlier than `from`; with `to` set, no later than `to`; an order without a date fails whenever either bound is set |
| Orders.EmptySearch | salon-fe/src/admin/Orders.jsx:57-59 | an empty search admits exactly the orders that have a customer name or an id |
| Orders.NoFilterKeepsAll | salon-fe/src/admin/Orders.jsx:56-67 | with no search and no bounds, a list of orders that all have ids is listed whole and in order |
| Orders.Metrics | salon-fe/src/admin/Orders.jsx:70-72 | total is the number of filtered orders; pending and delivered are the counts of those statuses among them; pending + delivered <= total |
| Orders.EffectiveQuantity | salon-fe/src/admin/Orders.jsx:142 | every line counts at least once; a positive quantity counts as itself |
| Orders.NoItemsTotalZero | salon-fe/src/admin/Orders.jsx:140-144 | an order with missing or empty items totals 0 |
| Orders.ZeroQuantityCountsOnce | salon-fe/src/admin/Orders.jsx:142 | a line with quantity 0 costs the same as one with no quantity: its unit price |
| Orders.TotalCoversPrices | salon-fe/src/admin/Orders.jsx:140-144 | an order's total is at least the sum of its unit prices, with a missing price counted as 0 |
| Orders.TotalOfJoinedItems | salon-fe/src/admin/Orders.jsx:140-144 | the total of an order with more items is the old total plus the new items' amounts |
| Orders.PlaceholderUnreachable | salon-fe/src/admin/Orders.jsx:219-229 | as written, every item image, including a missing one, becomes a URL starting with "http", so the `/no-image.png` fallback is never used |
| Orders.MissingImageRendersUndefined | salon-fe/src/admin/Orders.jsx:219-222 | as written, an item without an image renders `BASE_URL + "undefined"` |
| Orders.ItemImageSrcIntended | salon-fe/src/admin/Orders.jsx:219-229 | corrected rule: a missing or empty image shows the placeholder; any other image is resolved as the code does, and the result is the placeholder or an http URL |
| Orders.Rows | salon-fe/src/admin/Orders.jsx:218-241 | one row per item, and the row amounts add up to the order's total |
| Orders.Toggle | salon-fe/src/admin/Orders.jsx:194-198 | toggling a shown id removes every occurrence of it; toggling a hidden id appends it; every other id keeps its number of occurrences |
| Orders.ToggleTwice | salon-fe/src/admin/Orders.jsx:194-198 | toggling twice restores whether the id is shown; starting from hidden, it restores the list itself |
| Orders.OrdersPage.constructor | salon-fe/src/admin/Orders.jsx:12-16 | starting state: no orders, loading, empty search, no bounds, nothing expanded |
| Orders.OrdersPage.FetchOrders | salon-fe/src/admin/Orders.jsx:18-31 | on success the list is the server's; on failure it is kept; loading ends either way |
| Orders.OrdersPage.UpdateStatus | salon-fe/src/admin/Orders.jsx:37-53 | the server gets the next status only if the write succeeds; the page refetches only after a successful write; a failed write changes nothing |
| Orders.OrdersPage.SetSearch | salon-fe/src/admin/Orders.jsx:114 | the search text is the typed text |
| Orders.OrdersPage.SetDateFrom | salon-fe/src/admin/Orders.jsx:121-123 | the lower bound is the chosen date |
| Orders.OrdersPage.SetDateTo | salon-fe/src/admin/Orders.jsx:129-131 | the upper bound is the chosen date |
| Orders.OrdersPage.ToggleExpanded | salon-fe/src/admin/Orders.jsx:192-198 | the expanded list becomes the toggle of the old one |
| Orders.OrdersPage.Bar | salon-fe/src/admin/Orders.jsx:69-72 | the metric bar counts the listed orders; pending + delivered <= total |
| Bookings.OptimisticUpdate | salon-fe/src/admin/Bookings.jsx:50-52 | same length; each booking with the id has the new status, every other booking keeps its status, and no other field changes |
| Bookings.OptimisticUpdateIdempotent | salon-fe/src/admin/Bookings.jsx:50-52 | applying the same update twice is the same as applying it once |
| Bookings.UpdateDoesNotAddPending | salon-fe/src/admin/Bookings.jsx:50-52 | writing any status other than `Pending` never increases the number of pending bookings |
| Bookings.FilteredBookings | salon-fe/src/admin/Bookings.jsx:63-78 | the result is an order-preserving sub-sequence of the bookings; every kept booking satisfies search, status tab, and both date bounds, and every booking that satisfies all four is kept |
| Bookings.EmptySearchAdmits | salon-fe/src/admin/Bookings.jsx:65-68 | an empty query matches every booking |
| Bookings.AllTabListsEverything | salon-fe/src/admin/Bookings.jsx:70 | the "All" tab, with no query and no dates, lists every booking in order |
| Bookings.TabListsItsStatus | salon-fe/src/admin/Bookings.jsx:70 | any other tab, with no query and no dates, lists exactly the bookings whose status is the tab, in order |
| Bookings.Metrics | salon-fe/src/admin/Bookings.jsx:81-86 | total is the number of all bookings, unfiltered; pending and completed are their status counts; pending + completed <= total |
| Bookings.MarkCompletedHidesButton | salon-fe/src/admin/Bookings.jsx:186-193 | after "Mark Completed", no booking with that id shows the button any more, and every other booking is unchanged |
| Bookings.BookingsPage.constructor | salon-fe/src/admin/Bookings.jsx:12-19 | starting state: no bookings, loading, empty search, "All" tab, no dates |
| Bookings.BookingsPage.FetchBookings | salon-fe/src/admin/Bookings.jsx:22-32 | on success the list is the server's; on failure it is kept; loading ends either way |
| Bookings.BookingsPage.UpdateStatus | salon-fe/src/admin/Bookings.jsx:48-60 | the list is rewritten at once; a successful write updates the server; a failed write refetches the server's copy, which undoes the rewrite when the refetch succeeds |
| Bookings.BookingsPage.MarkCompleted | salon-fe/src/admin/Bookings.jsx:238-245 | offered only for a booking that is not completed, and always writes `Completed` for that booking's id |
| Bookings.BookingsPage.SetSearch | salon-fe/src/admin/Bookings.jsx:130 | the query is the typed text |
| Bookings.BookingsPage.SetStatusTab | salon-fe/src/admin/Bookings.jsx:151 | the tab is the chosen one |
| Bookings.BookingsPage.SetFromDate | salon-fe/src/admin/Bookings.jsx:136 | the lower bound is the chosen date |
| Bookings.BookingsPage.SetToDate | salon-fe/src/admin/Bookings.jsx:142 | the upper bound is the chosen date |
| Bookings.BookingsPage.Cards | salon-fe/src/admin/Bookings.jsx:81-86 | the cards count all held bookings, whatever the filters; pending + completed <= total |
| AdminLayout.SetBookingStatusFor | salon-fe/src/admin/AdminLayout.jsx:66-70 | every booking whose id is listed takes the status; every other booking is unchanged |
| AdminLayout.SetEnquiryStatusFor | salon-fe/src/admin/AdminLayout.jsx:73-77 | every enquiry whose id is listed takes the status; every other enquiry is unchanged |
| AdminLayout.PutOneMoreBooking | salon-fe/src/admin/AdminLayout.jsx:66-70 | one more per-id write is the same as adding that id to the ids already written |
| AdminLayout.PutOneMoreEnquiry | salon-fe/src/admin/AdminLayout.jsx:73-77 | one more per-id write is the same as adding that id to the ids already written |
| AdminLayout.SeenLeavesNoListedPending | salon-fe/src/admin/AdminLayout.jsx:63-80 | once the listed bookings are `Seen`, no pending booking has a listed id |
| AdminLayout.ContactedLeavesNoListedNew | salon-fe/src/admin/AdminLayout.jsx:63-80 | once the listed enquiries are `Contacted`, no new enquiry has a listed id |
| AdminLayout.Layout.constructor | salon-fe/src/admin/AdminLayout.jsx:10-13 | starting state: no notifications, no orders counted, dropdown closed |
| AdminLayout.Layout.FetchBookings | salon-fe/src/admin/AdminLayout.jsx:17-25 | on success the held list is the server's pending bookings, in fetch order; on failure the previous list is kept |
| AdminLayout.Layout.FetchEnquiries | salon-fe/src/admin/AdminLayout.jsx:28-36 | on success the held list is the server's new enquiries, in fetch order; on failure the previous list is kept |
| AdminLayout.Layout.FetchOrders | salon-fe/src/admin/AdminLayout.jsx:39-46 | on success the count is the number of fetched orders; on failure the previous count is kept |
| AdminLayout.Layout.ToggleDropdown | salon-fe/src/admin/AdminLayout.jsx:182 | the dropdown flips |
| AdminLayout.Layout.TotalNotifications | salon-fe/src/admin/AdminLayout.jsx:87 | the count is zero exactly when both lists are empty |
| AdminLayout.Layout.ClearNotifications | salon-fe/src/admin/AdminLayout.jsx:63-85 | every listed booking becomes `Seen` and every listed enquiry `Contacted` in the store, and no other record changes; after a successful refetch no listed id is still notified; the dropdown closes |
| AdminLayout.MarkBookingsSeen | salon-fe/src/admin/AdminLayout.jsx:66-70 | the loop of writes leaves the store's bookings equal to the rewrite of exactly the listed ids |
| AdminLayout.MarkEnquiriesContacted | salon-fe/src/admin/AdminLayout.jsx:73-77 | the loop of writes leaves the store's enquiries equal to the rewrite of exactly the listed ids |
| AdminEnquiries.StylesCoverExactlyTheStatuses | salon-fe/src/admin/AdminEnquiries.jsx:14-18 | the style table has entries for exactly New, Contacted and Closed |
| AdminEnquiries.Target | salon-fe/src/admin/AdminEnquiries.jsx:108-114 | a status button writes `Contacted` or `Closed`, a status the style table knows |
| AdminEnquiries.NoActionWritesNew | salon-fe/src/admin/AdminEnquiries.jsx:55 | no status button writes `New` |
| AdminEnquiries.EnquiriesPage.constructor | salon-fe/src/admin/AdminEnquiries.jsx:22-24 | starting state: no enquiries, nothing selected, empty reply, nothing sent |
| AdminEnquiries.EnquiriesPage.FetchEnquiries | salon-fe/src/admin/AdminEnquiries.jsx:27-34 | on success the list is the server's; on failure it is kept |
| AdminEnquiries.EnquiriesPage.UpdateStatus | salon-fe/src/admin/AdminEnquiries.jsx:37-44 | the page refetches only after a successful write; a failed write changes nothing, locally or on the server |
| AdminEnquiries.EnquiriesPage.Press | salon-fe/src/admin/AdminEnquiries.jsx:106-116 | a row button writes its target status for that row's id |
| AdminEnquiries.EnquiriesPage.Select | salon-fe/src/admin/AdminEnquiries.jsx:102 | the dialog shows the chosen enquiry |
| AdminEnquiries.EnquiriesPage.Deselect | salon-fe/src/admin/AdminEnquiries.jsx:181 | the dialog closes |
| AdminEnquiries.EnquiriesPage.SetReplyMessage | salon-fe/src/admin/AdminEnquiries.jsx:176 | the reply text is the typed text |
| AdminEnquiries.EnquiriesPage.HandleReply | salon-fe/src/admin/AdminEnquiries.jsx:47-63 | an empty message changes nothing; otherwise one email goes to the selected enquiry's address, its status is written `Contacted`, and the text and selection are cleared |
| Dashboard.Titles | salon-fe/src/admin/Dashboard.jsx:30-32 | every booking's service title is in the set |
| Dashboard.TitlesAtMostBookings | salon-fe/src/admin/Dashboard.jsx:30-32 | there are no more distinct titles than bookings |
| Dashboard.TitlesComeFromBookings | salon-fe/src/admin/Dashboard.jsx:30-32 | every distinct title is the title of some booking |
| Dashboard.ActiveServices | salon-fe/src/admin/Dashboard.jsx:30-32 | the count is at most the number of bookings, and at least 1 exactly when there is a booking |
| Dashboard.RevenueOfOneMore | salon-fe/src/admin/Dashboard.jsx:34-40 | one more booking adds its price (missing counts as 0) exactly when it is completed in the current month, and adds nothing otherwise |
| Dashboard.NotCompletedAddsNothing | salon-fe/src/admin/Dashboard.jsx:34-40 | a booking that is not completed leaves the revenue unchanged |
| Dashboard.OnlyTheMonthMatters | salon-fe/src/admin/Dashboard.jsx:38 | moving a booking to any date with the same month, in any year, does not change the revenue |
| Dashboard.InsertByDate | salon-fe/src/admin/Dashboard.jsx:42-43 | the insertion adds exactly the one booking: the length grows by one and the multiset gains that booking |
| Dashboard.InsertAtMost | salon-fe/src/admin/Dashboard.jsx:42-43 | inserting a booking no later than a date into a list with no booking after that date leaves no booking after it |
| Dashboard.InsertKeepsNewestFirst | salon-fe/src/admin/Dashboard.jsx:42-43 | inserting into a newest-first list keeps it newest first |
| Dashboard.ConsNewestFirst | salon-fe/src/admin/Dashboard.jsx:42-43 | a booking no older than every booking of a newest-first list can be put in front of it |
| Dashboard.SortNewestFirst | salon-fe/src/admin/Dashboard.jsx:42-43 | the sorted copy is a permutation of the bookings |
| Dashboard.SortIsNewestFirst | salon-fe/src/admin/Dashboard.jsx:42-43 | the sorted copy is ordered by non-increasing date |
| Dashboard.InsertKeepsTies | salon-fe/src/admin/Dashboard.jsx:42-43 | for every date, the inserted booking goes ahead of the bookings with its date, and the bookings of each date keep their order |
| Dashboard.SortKeepsTies | salon-fe/src/admin/Dashboard.jsx:42-43 | the sort is stable, as `Array.prototype.sort` is: for every date, the bookings with that date appear in the sorted copy in their original order |
| Dashboard.RecentBookings | salon-fe/src/admin/Dashboard.jsx:42-44 | min(5, number of bookings) entries, newest first, each taken from the bookings; the bookings themselves are not reordered |
| Dashboard.RecentAreTheNewest | salon-fe/src/admin/Dashboard.jsx:42-44 | every booking left out of the recent list is no newer than any booking in it |
| Dashboard.NewestFirstSplit | salon-fe/src/admin/Dashboard.jsx:42-44 | in a newest-first list, no booking of a tail is newer than any booking of the head before it |
| Dashboard.DashboardStats | salon-fe/src/admin/Dashboard.jsx:27-40 | total is the number of bookings; pending <= total; active services <= total, and at least 1 exactly when total > 0 |
| Cart.CartTotal | salon-fe/src/pages/Cart.jsx:11 | every line total is at most the cart total; the total is 0 exactly when every line has price 0 or quantity 0, so an empty cart totals 0 |
| Cart.CartTotalAppend | salon-fe/src/pages/Cart.jsx:11 | the total of a concatenated cart is the sum of the parts' totals |
| Cart.SumIsCartTotal | salon-fe/src/pages/Cart.jsx:11 | the cart total is the sum of price x qty over the lines |
| Cart.Press | salon-fe/src/pages/Cart.jsx:43-68 | each button addresses that item's id only; "−" asks for qty − 1, "+" for qty + 1, and Remove removes the item |
| Cart.MinusThenPlus | salon-fe/src/pages/Cart.jsx:43-60 | "+" after "−" asks for the original quantity again |
| Cart.View | salon-fe/src/pages/Cart.jsx:15-89 | one row per item; the empty message appears exactly when the cart is empty; the total and Place Order appear exactly when it is not, and the total shown is the cart total |
| Cart.EmptyMessageOrFooter | salon-fe/src/pages/Cart.jsx:17-89 | exactly one of the empty message and the footer is shown |
| Checkout.Snapshot | salon-fe/src/pages/Checkout.jsx:48-54 | same length and order as the cart; each entry copies the id to productId, and copies name, image, price and qty |
| Checkout.SnapshotTotal | salon-fe/src/pages/Checkout.jsx:23-55 | the snapshot's sum of price x qty equals the cart total |
| Checkout.BuildOrderData | salon-fe/src/pages/Checkout.jsx:40-56 | the user block takes uid and email from the signed-in user and name, phone and address from the inputs; the items are the snapshot; totalAmount equals the snapshot's own sum |
| Checkout.EmptyCartOrder | salon-fe/src/pages/Checkout.jsx:212-218 | the button ignores the cart: an empty cart yields an order with no items and total 0 |
| Checkout.CheckoutPage.constructor | salon-fe/src/pages/Checkout.jsx:12-21 | starting state: no user, empty inputs, no success, no placed order |
| Checkout.CheckoutPage.OnAuthStateChanged | salon-fe/src/pages/Checkout.jsx:29-36 | with no user the visitor is sent to login and the state is kept; otherwise the user is recorded |
| Checkout.CheckoutPage.SetName | salon-fe/src/pages/Checkout.jsx:179 | the name is the typed text |
| Checkout.CheckoutPage.SetPhone | salon-fe/src/pages/Checkout.jsx:187 | the phone is the typed text |
| Checkout.CheckoutPage.SetAddress | salon-fe/src/pages/Checkout.jsx:195 | the address is the typed text |
| Checkout.CheckoutPage.PlaceOrderEnabled | salon-fe/src/pages/Checkout.jsx:214 | enabled exactly when name, phone and address are all non-empty |
| Checkout.CheckoutPage.PlaceOrder | salon-fe/src/pages/Checkout.jsx:39-72 | callable only while the button is enabled; the order data is posted when there is a user, and a posted order always carries a non-empty name, phone and address; the placed order, the success flag and the cart clear happen exactly when the response is ok; otherwise nothing changes; the success flag still implies a placed order |
| Checkout.CheckoutPage.ShowsSuccess | salon-fe/src/pages/Checkout.jsx:108 | while the success flag implies a placed order, the success screen is shown exactly when the flag is set, and always has a placed order to show |
| Navbar.CartCount | salon-fe/src/components/Navbar.jsx:59 | every item's qty is at most the count; the count is 0 exactly when every qty is 0, so an empty cart counts 0 |
| Navbar.CartCountAppend | salon-fe/src/components/Navbar.jsx:59 | the count of a concatenated cart is the sum of the parts' counts |
| Navbar.Notifications | salon-fe/src/components/Navbar.jsx:41-46 | the pending bookings, in order, followed by the new enquiries, in order; the length is the sum of the two counts |
| Navbar.NotificationsAreFromTheLists | salon-fe/src/components/Navbar.jsx:41-46 | every notification is a `Pending` booking or a `New` enquiry from the fetched lists |
| Navbar.BadgeIffPendingOrNew | salon-fe/src/components/Navbar.jsx:41-46 | the notification list is non-empty exactly when some fetched booking is `Pending` or some fetched enquiry is `New` |
| Navbar.NavbarState.constructor | salon-fe/src/components/Navbar.jsx:14-17 | starting state: signed out, not admin, menu closed, no notifications |
| Navbar.NavbarState.OnAuthStateChanged | salon-fe/src/components/Navbar.jsx:24-32 | signed in exactly when there is a user; admin exactly when that user's uid is ADMIN_UID; admin implies signed in |
| Navbar.NavbarState.Logout | salon-fe/src/components/Navbar.jsx:61-65 | signing out clears both the signed-in and admin flags and closes the menu |
| Navbar.NavbarState.ToggleMenu | salon-fe/src/components/Navbar.jsx:128 | the menu flips |
| Navbar.NavbarState.CloseMenu | salon-fe/src/components/Navbar.jsx:137 | a link of the mobile menu closes it |
| Navbar.NavbarState.FetchNotifications | salon-fe/src/components/Navbar.jsx:37-50 | for a non-admin nothing changes; for the admin the notifications are replaced only when both reads succeed, and after such a fetch the admin badge is shown exactly when the store holds a `Pending` booking or a `New` enquiry |
| Navbar.NavbarState.AdminBadge | salon-fe/src/components/Navbar.jsx:84-93 | the admin badge is shown, with the count, exactly when the user is admin and there are notifications; a shown badge implies a signed-in user |
| Navbar.NavbarState.CartBadge | salon-fe/src/components/Navbar.jsx:100-104 | the cart badge is shown, with the cart count, exactly when some item has a positive qty |
| Services.GetImageUrl | salon-fe/src/pages/Services.jsx:80-84 | a missing or empty image gives "/no-image.png"; an http image is kept; any other image is prefixed with BASE_URL |
| Services.BaseUrlIsHttp | salon-fe/src/pages/Services.jsx:7 | BASE_URL is an http address |
| Services.PresentImageIsAbsolute | salon-fe/src/pages/Services.jsx:80-84 | a present image always resolves to an http URL, and resolving that URL again leaves it unchanged |
| Services.PlaceholderIsRelative | salon-fe/src/pages/Services.jsx:81 | the placeholder is not idempotent: resolving it again would prefix BASE_URL |
| Services.Payload | salon-fe/src/pages/Services.jsx:103-111 | status `Pending`; title and price from the selected service; name, phone, date and time from the form |
| Services.StoredBooking | salon-fe/src/pages/Services.jsx:103-111 | a booking kept with the posted fields has no `servicePrice` |
| Services.BookedServiceEarnsNothing | salon-fe/src/pages/Services.jsx:105 | a booking made on this page adds nothing to the dashboard's revenue, even once completed |
| Services.ServicesPage.constructor | salon-fe/src/pages/Services.jsx:50-62 | starting state: no services, loading, nothing selected, no modal, no toast, empty form |
| Services.ServicesPage.FetchServices | salon-fe/src/pages/Services.jsx:66-75 | on success the list is the server's; on failure it is kept; loading ends either way |
| Services.ServicesPage.ModalShown | salon-fe/src/pages/Services.jsx:180 | while an open modal implies a selected service, the modal is shown exactly when it is open, and only with a service selected |
| Services.ServicesPage.OpenBooking | salon-fe/src/pages/Services.jsx:87-90 | the service is selected and the modal shown; an open modal still implies a selected service |
| Services.ServicesPage.CloseBooking | salon-fe/src/pages/Services.jsx:92-96 | the modal is hidden, the selection cleared, and all four form fields reset to ""; an open modal still implies a selected service |
| Services.ServicesPage.SetName | salon-fe/src/pages/Services.jsx:211-213 | only the name field changes |
| Services.ServicesPage.SetPhone | salon-fe/src/pages/Services.jsx:221-223 | only the phone field changes |
| Services.ServicesPage.SetDate | salon-fe/src/pages/Services.jsx:230-232 | only the date field changes |
| Services.ServicesPage.SetTime | salon-fe/src/pages/Services.jsx:238-240 | only the time field changes |
| Services.ServicesPage.HandleBooking | salon-fe/src/pages/Services.jsx:98-120 | with no service selected nothing is posted and nothing changes; otherwise the payload is posted; success closes the modal and shows the toast; failure raises the alert and keeps the state; an open modal still implies a selected service |
| ProductCard.InCart | salon-fe/src/components/ProductCard.jsx:9 | true exactly when some cart item's id is the product's id, so false for an empty cart |
| ProductCard.OtherItemsDoNotMatter | salon-fe/src/components/ProductCard.jsx:9 | adding items with other ids does not change the answer |
| ProductCard.Buttons | salon-fe/src/components/ProductCard.jsx:35-62 | a non-admin sees only the add button, disabled and captioned "Added" exactly when the product is in the cart; an admin sees only Edit, which passes the product, and Delete, which passes its id |
| ProductCard.ClickAdd | salon-fe/src/components/ProductCard.jsx:36-45 | clicking sends `addToCart(product)` exactly when the product is not in the cart |
| ProductCard.EmptyCartOffersAdd | salon-fe/src/components/ProductCard.jsx:9 | on an empty cart every customer card offers "Add to Cart" |

## Left out

- Socket subscriptions and polling are not modelled. This covers the `booking-updated` and `booking-created` handlers of the bookings page and the 10-second `setInterval` polls in the admin shell and the navigation bar. Each poll is simply another call of the fetch method.
- AdminLayout.Layout.ClearNotifications: assumes every `PUT` of the two `Promise.all` batches succeeds. A rejected batch, which aborts the rest of the handler, is not modelled.
- The cart context's operations (`addToCart`, `updateQty`, `removeFromCart`, `clearCart`) are defined outside these files. The pages are modelled as the requests they send to the cart context.
- Firebase authentication is a parameter: the user the listener reports. The presence hook, the user list, login, signup and the route guard are not part of this model.
- HTTP and e-mail are abstracted. URLs, headers, tokens and FormData are not modelled. Each request is a boolean outcome, and a `GET` returns the `Backend.Store` collection.
- E-mail delivery is not modelled: the dummy `sendEmail` is a record appended to `outbox`.
- The server's route handlers are not part of this model. A `PUT { status }` is taken to be a partial merge on the record with that id, and no server-side status-transition check is assumed.
- JavaScript `Date` parsing, `getMonth`, `toLocaleString`, `Number()` coercion and floating point are abstracted:
  - dates are integers, ordered as the dates are;
  - the month of a date comes from a given function `monthOf`;
  - the current month is a parameter;
  - prices and quantities are naturals;
  - the local time of a placed order is a string parameter.
- Lower-casing is modelled on ASCII letters only.
- Rendering is not modelled: the PDF invoice, animations, loading skeletons, the toast timers and the static pages. The timers are the `setTimeout` calls that hide the success messages.
- Bookings.FilteredBookings: every fetched booking is assumed to carry `customerName`, `phone` and `serviceTitle` as strings. The search filter calls `toLowerCase` and `includes` on them, so a booking missing one of them makes the source throw a TypeError while rendering. The services page always posts all three.
- The pages talk to two hosts. The dashboard, the navigation bar and the services page use `http://localhost:4000`. The admin bookings, orders, enquiries and shell pages and checkout use `https://salon-server-gurw.onrender.com`. The model treats both as the one `Backend.Store`. Lemmas that link two pages, such as `Services.BookedServiceEarnsNothing` (services page to dashboard), link pages of the same host; a lemma about a booking made on one host and read on the other would assume the two servers share their data.
- Checkout.CheckoutPage.PlaceOrder: with no signed-in user the source throws a TypeError before posting anything. The model returns without posting.
- Orders.Rows: renders the item image with the corrected rule. The rule as written is modelled by `Orders.ItemImageSrc` and examined under Findings.
- The order page's total reads `item.quantity`, while checkout posts `qty`. An order sent by checkout therefore counts each line once, at its unit price. `Orders.ZeroQuantityCountsOnce` states this rule for a line without a quantity.

## Findings

| source | as written | input that shows it | evidently intended | confidence | as-written member | corrected member |
|---|---|---|---|---|---|---|
| salon-fe/src/admin/Orders.jsx:219-229 | `item.image?.startsWith("http") ? item.image : \`${BASE_URL}${item.image}\``, then a fallback to `"/no-image.png"` when that URL is falsy | an item with no `image`: the URL is `https://salon-server-gurw.onrender.comundefined`, and the placeholder is never reached | an item without an image shows `/no-image.png` | not executed | Orders.PlaceholderUnreachable | Orders.ItemImageSrcIntended |
