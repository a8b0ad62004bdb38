# Agri-market notifications, orders and storefront in Dafny

This project models the real-time notification path and the order core of
the agri-market marketplace. The Express/Socket.IO backend is a set of
route handlers over collections. The React frontend keeps state in
providers, reducers and components.

**Backend and relay**
- The socket relay (`socket/index.js`) maps a user id to that user's
  socket and forwards three kinds of event. Its disconnect handler
  forgets the first user found on the closing socket.
- The notification document (`backend/model/notification.js`) and the
  notification routes (`backend/controller/notification.js`) create,
  list, mark read, mark all read and delete notifications.
- The order routes (`backend/controller/order.js`) cover:
  - validation of the request;
  - the product check;
  - splitting the cart into one order per shop, each with a seller and a
    buyer notification;
  - the status update;
  - the refund request;
  - the refund acceptance, with its restock.
- The eSewa payment routes (`backend/controller/payment.js`) cover the
  signed message, the transaction uuid, `/verify` and `/status-check`.

**Frontend state**
- Two client-side notification providers:
  - a capped list of at most twenty toasts with a separately kept unread
    counter (`components/Context/NotificationContext.jsx`);
  - an uncapped list fed by relay events (`context/NotificationContext.jsx`).
- The Redux reducers for notifications, orders, messages and blogs.

**Frontend views**
- Notifications: the dropdown, the notifications page, the two bells and
  the buyer toast. This covers time-ago text, links, badges, tabs and
  dismissal.
- Orders: the buyer's and the seller's order pages (progress bars,
  refund buttons, the review form, the payment label).
- Blogs: related posts, paragraph splitting, the excerpt and the seller's
  blog table with its preview slug.
- Storefront:
  - the product listing's filter and sort;
  - the product card's counter, cart and wishlist;
  - the product image payload;
  - the checkout form with its coupon.

**How the source becomes the model**
- State that the source mutates becomes a Dafny `class`. This covers the
  relay's `users` map, each provider's `useState` fields, the
  `createReducer` slices, the database collections and a component's
  local state. Methods are proved against pure functions that describe
  the new state.
- Switch-style reducers and formatting code become functions.
- A React effect is one method call per run, and a run first performs
  the previous run's cleanup. Socket listeners and timers keep the values
  they captured when they were set up.
- Clocks (`Date.now()`, `new Date()`), the HMAC signature, the eSewa
  status reply and file reads are parameters.
- A JavaScript missing or falsy field is `None` or `""`, as each datatype
  says.

## Model

| member | source | states |
|---|---|---|
| Relay.IndexOfKey | socket/index.js:45 | `users.get` finds the position of a key: it is the first entry with that key, or -1 exactly when no entry has it |
| Relay.FirstIndexOfSocket | socket/index.js:79-84 | the disconnect loop stops at the first registered user whose socket is the closing one, or finds none |
| Relay.SocketServer.constructor | socket/index.js:30 | the registry starts empty and nothing has been emitted |
| Relay.SocketServer.AddUser | socket/index.js:37-40 | `addUser` stores (socket, userType) under the user id (overwriting in place) and emits nothing |
| Relay.SocketServer.SendNotification | socket/index.js:43-54 | `sendNotification` leaves the registry alone and emits `getNotification` with message, type and timestamp to the recipient's socket only when the recipient is registered |
| Relay.SocketServer.NewOrder | socket/index.js:57-64 | `newOrder` forwards the order unchanged to the seller's socket when the seller is registered |
| Relay.SocketServer.OrderStatusUpdate | socket/index.js:67-74 | `orderStatusUpdate` forwards the order unchanged to the buyer's socket when the buyer is registered |
| Relay.SocketServer.Disconnect | socket/index.js:77-90 | disconnect deletes the first user registered on that socket, and only when that user id is truthy; nothing is emitted |
| Relay.SetKeepsKeysDistinct | socket/index.js:38 | `Map.set` keeps every user id registered at most once |
| Relay.DeleteKeepsKeysDistinct | socket/index.js:87 | `Map.delete` keeps every user id registered at most once |
| Relay.GetAt | socket/index.js:45 | with distinct keys, `users.get` returns the entry stored under the key at any position |
| Relay.DeleteRemovesKey | socket/index.js:87 | `users.delete` removes exactly that key's position and leaves the key unregistered |
| Relay.DeleteKeepsOthers | socket/index.js:87 | `users.delete` leaves every other key's entry |
| Relay.AddUserOverwrites | socket/index.js:37-40 | after `addUser` the user maps to the new socket and every other user is unchanged; a re-announce keeps the user's position, and a new user is appended |
| Relay.DisconnectRemovesFirstMatchOnly | socket/index.js:77-90 | a socket nobody registered changes nothing; otherwise exactly the first matching user is removed and every other user keeps its entry |
| Relay.StaleDisconnectKeepsNewerEntry | socket/index.js:77-90 | the late disconnect of an old socket never removes a user who has since re-announced from another socket |
| Relay.SharedSocketKeepsLaterUser | socket/index.js:79-87 | when two users share one socket, its disconnect removes only the earlier-registered one and the later one stays registered |
| Relay.ReconnectThenStaleDisconnect | socket/index.js:37-90 | announce from s1, re-announce from s2, then the late disconnect of s1: a later notification reaches s2 exactly once and never s1 |
| Relay.RouteDeliversAtMostOnce | socket/index.js:43-74 | every forwarding handler emits at most once, nothing exactly when the target is unregistered, and forwards the payload and event unchanged |
| CappedContext.DeriveUserType | frontend/src/components/Context/NotificationContext.jsx:21-29 | a logged-in seller makes the side "seller"; otherwise a logged-in user makes it "buyer"; otherwise there is no side (all three as iffs) |
| CappedContext.AcceptsByAudience | frontend/src/components/Context/NotificationContext.jsx:56-59 | with no side nothing is accepted; a buyer-addressed event is accepted exactly by buyers, a seller-addressed one exactly by sellers, and one without an audience by either side |
| CappedContext.MakeToast | frontend/src/components/Context/NotificationContext.jsx:60-67 | a new toast is unread and carries the arrival id and time; message and type fall back to "New notification" and "info", and a falsy link becomes none |
| CappedContext.Arrive | frontend/src/components/Context/NotificationContext.jsx:69 | an arrival puts the toast first and keeps the previous toasts in order after it, cut to 20 in all |
| CappedContext.Expire | frontend/src/components/Context/NotificationContext.jsx:75 | the removal filter keeps exactly the toasts whose id differs, as a subsequence of the list, dropping one entry for each toast carrying the id |
| CappedContext.AllRead | frontend/src/components/Context/NotificationContext.jsx:138-143 | every toast is kept in place with `read` set |
| CappedContext.MarkId | frontend/src/components/Context/NotificationContext.jsx:149-158 | toasts with the given id are marked read, all others unchanged, in place |
| CappedContext.FirstWithId | frontend/src/components/Context/NotificationContext.jsx:164 | `find` returns the first toast with that id (every earlier toast has another id), or nothing exactly when no toast has it |
| CappedContext.NotificationProvider.constructor | frontend/src/components/Context/NotificationContext.jsx:15-18 | empty list, zero count, no side, no socket, no listener and nothing announced |
| CappedContext.NotificationProvider.SyncUserType | frontend/src/components/Context/NotificationContext.jsx:21-29 | the side follows DeriveUserType |
| CappedContext.ConnectRun | frontend/src/components/Context/NotificationContext.jsx:32-41 | one run of the connect effect runs the previous run's cleanup, then opens a new socket exactly when someone is logged in and none is held; only the new socket can become connected |
| CappedContext.MountThenRerenderDisconnects | frontend/src/components/Context/NotificationContext.jsx:32-41 | after login the first run opens and holds a socket; holding it re-runs the effect, whose cleanup disconnects that same socket while it stays held |
| CappedContext.DisconnectedSocketIsKept | frontend/src/components/Context/NotificationContext.jsx:32-41 | once the held socket is disconnected, no later run of the effect opens or closes anything, whoever logs in |
| CappedContext.NotificationProvider.Connect | frontend/src/components/Context/NotificationContext.jsx:32-41 | the socket state after one effect run is ConnectRun of the state before |
| CappedContext.NotificationProvider.Listen | frontend/src/components/Context/NotificationContext.jsx:44-54 | with a socket held, one more listener capturing the current side is registered and none removed, and the seller id (else the user id) is announced together with whether that socket is still connected; with no socket nothing happens |
| CappedContext.Takers | frontend/src/components/Context/NotificationContext.jsx:54-59 | counts the listeners that keep an event by the side each captured; zero exactly when none accepts it |
| CappedContext.ArriveTimesDuplicates | frontend/src/components/Context/NotificationContext.jsx:54-70 | with n keeping listeners the first n toasts (up to the cap) are the same event, and the count still covers the unread toasts after growing by n |
| CappedContext.NotificationProvider.Receive | frontend/src/components/Context/NotificationContext.jsx:54-80 | only a connected socket delivers an event; then each listener that keeps it by its captured side adds the same toast at the head of the capped list and one to the count, so a rejected event changes nothing and the list never exceeds 20 |
| CappedContext.NotificationProvider.ExpireId | frontend/src/components/Context/NotificationContext.jsx:73-78 | the five-minute timer removes that id's toasts and leaves the count |
| CappedContext.NotificationProvider.MarkAllAsRead | frontend/src/components/Context/NotificationContext.jsx:137-145 | all toasts read and count zero |
| CappedContext.NotificationProvider.MarkAsRead | frontend/src/components/Context/NotificationContext.jsx:148-160 | marks that id read and lowers the count by one, floored at zero, whether or not an unread toast had the id |
| CappedContext.NotificationProvider.ClearNotification | frontend/src/components/Context/NotificationContext.jsx:163-169 | removes that id's toasts and lowers the count only when the first toast found with the id was unread |
| CappedContext.NotificationProvider.ClearAllNotifications | frontend/src/components/Context/NotificationContext.jsx:172-175 | empty list and zero count |
| CappedContext.UnreadAfterMark | frontend/src/components/Context/NotificationContext.jsx:148-160 | marking an id lowers the number of unread toasts by exactly the unread toasts carrying it |
| CappedContext.UnreadAfterExpire | frontend/src/components/Context/NotificationContext.jsx:163-169 | removing an id lowers the number of unread toasts by exactly the unread toasts carrying it |
| CappedContext.UnreadWithIdAtMostOne | frontend/src/components/Context/NotificationContext.jsx:61 | with distinct `Date.now()` ids, at most one unread toast carries an id |
| CappedContext.MarkAllIdempotent | frontend/src/components/Context/NotificationContext.jsx:137-145 | marking all twice is marking all once, and leaves no unread toast, in agreement with count zero |
| CappedContext.ArrivalKeepsCover | frontend/src/components/Context/NotificationContext.jsx:69-70 | the count keeps covering the unread toasts after an arrival; an exact count stays exact iff nothing unread falls off the 20-entry cap |
| CappedContext.ExpireKeepsCover | frontend/src/components/Context/NotificationContext.jsx:73-78 | expiry keeps the count covering the unread toasts, but an exact count stops being exact when an unread toast expires |
| CappedContext.MarkAsReadDrift | frontend/src/components/Context/NotificationContext.jsx:148-160 | marking an unread toast keeps the count covering (exact with unique ids); marking an id with no unread toast drops a positive exact count below the list |
| CappedContext.ClearKeepsCover | frontend/src/components/Context/NotificationContext.jsx:163-169 | clearing keeps the count covering the unread toasts, and exact when it was exact and ids are unique |
| SocketContext.Announce | frontend/src/context/NotificationContext.jsx:35-38 | the announcement carries the user id and is "seller" exactly for a seller, else "buyer" |
| SocketContext.AnnouncementRegistersSide | frontend/src/context/NotificationContext.jsx:33-39 | after the relay stores the announcement, the user is registered on that socket with that side |
| SocketContext.NoteFromNotification | frontend/src/context/NotificationContext.jsx:46-52 | a `getNotification` entry is unread, has a local id, no link, and the event's type, message and timestamp |
| SocketContext.NoteFromNewOrder | frontend/src/context/NotificationContext.jsx:58-65 | a `newOrder` entry is unread with type "new_order", the fixed message and a link to `/dashboard/orders/<id>` |
| SocketContext.StatusLink | frontend/src/context/NotificationContext.jsx:77 | sellers get `/dashboard-order/<id>`, buyers `/order/<id>`; both end in the order id |
| SocketContext.NoteFromStatusUpdate | frontend/src/context/NotificationContext.jsx:71-78 | an `orderStatusUpdated` entry is unread, of type "order_update", with the message naming order and status and the side's link |
| SocketContext.MarkId | frontend/src/context/NotificationContext.jsx:108-110 | entries with the id are marked read in place, all others unchanged |
| SocketContext.AllRead | frontend/src/context/NotificationContext.jsx:115-117 | every entry kept in place with `read` set |
| SocketContext.ClickTarget | frontend/src/context/NotificationContext.jsx:126-130 | a message notification goes to its inbox conversation; any other goes to its `clickAction` exactly when that is set |
| SocketContext.SocketProvider.constructor | frontend/src/context/NotificationContext.jsx:13-15 | no socket held, none opened, empty list, zero count |
| SocketContext.SocketProvider.Connect | frontend/src/context/NotificationContext.jsx:26-89 | one run of the effect is EffectRun: the previous run's socket is closed, and a set and authenticated user gets a new socket that announces the user and side once; otherwise the closed socket stays in the state |
| SocketContext.EffectRun | frontend/src/context/NotificationContext.jsx:26-89 | a run leaves a socket open exactly for a set and authenticated user, and that socket is a new one; otherwise the state keeps the socket it held |
| SocketContext.RunClosesPrevious | frontend/src/context/NotificationContext.jsx:83-89 | every run closes the socket the run before opened, so at most one socket is open and it is the newest |
| SocketContext.LogoutKeepsClosedSocket | frontend/src/context/NotificationContext.jsx:26-89 | logging out closes the socket but leaves it in the `socket` state |
| SocketContext.SocketProvider.OnGetNotification | frontend/src/context/NotificationContext.jsx:45-55 | only an open socket delivers: then the new entry goes first and the count rises by one; otherwise nothing changes |
| SocketContext.SocketProvider.OnNewOrder | frontend/src/context/NotificationContext.jsx:57-68 | only an open socket delivers: then the new-order entry goes first and the count rises by one; otherwise nothing changes |
| SocketContext.SocketProvider.OnOrderStatusUpdated | frontend/src/context/NotificationContext.jsx:70-81 | only an open socket delivers: then the status entry goes first with the side captured when that socket was opened, and the count rises by one; otherwise nothing changes |
| SocketContext.SocketProvider.SendNotification | frontend/src/context/NotificationContext.jsx:91-95 | data is emitted exactly when a socket is held, recorded with whether that socket is still open |
| SocketContext.SocketProvider.ClearNotifications | frontend/src/context/NotificationContext.jsx:97-100 | empty list and zero count |
| SocketContext.SocketProvider.AddNotification | frontend/src/context/NotificationContext.jsx:102-105 | the entry goes first and the count rises by one |
| SocketContext.SocketProvider.MarkAsRead | frontend/src/context/NotificationContext.jsx:107-112 | marks the id read and lowers the count by one, floored at zero |
| SocketContext.SocketProvider.MarkAllAsRead | frontend/src/context/NotificationContext.jsx:114-119 | all entries read and count zero |
| SocketContext.SocketProvider.HandleNotificationClick | frontend/src/context/NotificationContext.jsx:121-131 | an unread click marks the clicked `_id` and lowers the count; the navigation target is ClickTarget |
| SocketContext.MarkAbsentIdChangesNothing | frontend/src/context/NotificationContext.jsx:123 | marking an id no entry carries (a server `_id` against local numeric ids) changes no entry |
| SocketContext.AllReadIdempotent | frontend/src/context/NotificationContext.jsx:114-119 | marking all twice is marking all once, and every entry is read |
| SocketContext.StatusUpdateNamesOrder | frontend/src/context/NotificationContext.jsx:74-77 | the status entry's message starts "Order #" followed by the id, and its link ends in the id |
| NotificationReducer.MarkDoc | frontend/src/redux/reducers/notification.js:60-62 | documents with the id get status "read" in place, others unchanged |
| NotificationReducer.AllDocsRead | frontend/src/redux/reducers/notification.js:82-85 | every document kept in place with status "read" |
| NotificationReducer.WithoutDoc | frontend/src/redux/reducers/notification.js:105 | the filter keeps exactly the documents whose id differs, as a subsequence of the list, dropping one entry for each document carrying the id |
| NotificationReducer.Decrement | frontend/src/redux/reducers/notification.js:63 | never negative, and one less for a positive count |
| NotificationReducer.Reduce | frontend/src/redux/reducers/notification.js:10-123 | an unrecognised action returns the state unchanged, and no action touches `success` |
| NotificationReducer.RequestAndFailureFrames | frontend/src/redux/reducers/notification.js:13-119 | a request sets only its own flag (`loading` for the list, `isLoading` for the rest); a failure records the error, clears its flag and keeps list and count |
| NotificationReducer.GetAllReplacesList | frontend/src/redux/reducers/notification.js:18-23 | the list becomes the payload; count, `isLoading` and error stay |
| NotificationReducer.CountNeverNegative | frontend/src/redux/reducers/notification.js:56-113 | mark never yields a negative count, mark-all yields zero, and delete yields a negative count only when it was already negative and nothing unread was deleted |
| NotificationReducer.UnreadWithId | frontend/src/redux/reducers/notification.js:106-108 | positive exactly when `find` would locate an unread document with the id |
| NotificationReducer.MarkAllIdempotent | frontend/src/redux/reducers/notification.js:78-87 | mark-all twice equals once, leaves nothing unread and keeps the ids in place |
| NotificationReducer.UnreadAfterMark | frontend/src/redux/reducers/notification.js:56-64 | marking lowers the unread documents by exactly those with the id |
| NotificationReducer.UnreadAfterDelete | frontend/src/redux/reducers/notification.js:101-113 | deleting lowers the unread documents by exactly those with the id |
| NotificationReducer.UnreadWithIdAtMostOne | frontend/src/redux/reducers/notification.js:105-108 | with unique ids, at most one unread document has a given id |
| NotificationReducer.CountSyncUnderMarkAndDelete | frontend/src/redux/reducers/notification.js:56-113 | a count that agrees with the list keeps agreeing after any delete and after marking an unread document; marking an id with no unread document puts it below the list |
| OrderReducer.FindOrderIndex | frontend/src/redux/reducers/order.js:51 | `findIndex` returns the first order with the id, or -1 exactly when none has it |
| OrderReducer.PatchFirstChangesOnlyFirstMatch | frontend/src/redux/reducers/order.js:48-56 | the status update changes the status of the first matching order only, or nothing when there is none |
| OrderReducer.OrderStore.constructor | frontend/src/redux/reducers/order.js:3-5 | loading, with every other field absent |
| OrderReducer.OrderStore.OrdersRequest | frontend/src/redux/reducers/order.js:9-11 | sets loading and nothing else |
| OrderReducer.OrderStore.OrdersSuccess | frontend/src/redux/reducers/order.js:12-15 | clears loading and stores the orders |
| OrderReducer.OrderStore.OrdersFailed | frontend/src/redux/reducers/order.js:16-19 | clears loading and records the error |
| OrderReducer.OrderStore.AdminOrdersRequest | frontend/src/redux/reducers/order.js:35-37 | sets the admin flag only |
| OrderReducer.OrderStore.AdminOrdersSuccess | frontend/src/redux/reducers/order.js:38-41 | clears the admin flag and stores the admin orders |
| OrderReducer.OrderStore.AdminOrdersFailed | frontend/src/redux/reducers/order.js:42-45 | clears the admin flag and records the error |
| OrderReducer.OrderStore.UpdateOrderStatus | frontend/src/redux/reducers/order.js:48-56 | with orders loaded, patches the first match's status; without orders, nothing |
| OrderReducer.OrderStore.ClearErrors | frontend/src/redux/reducers/order.js:58-60 | error cleared |
| MessageReducer.MessageStore.constructor | frontend/src/redux/reducers/message.js:3-7 | empty messages, not loading, no error |
| MessageReducer.MessageStore.Request | frontend/src/redux/reducers/message.js:12-15 | loading and error cleared |
| MessageReducer.MessageStore.CreateMessageSuccess | frontend/src/redux/reducers/message.js:16-19 | the new message is appended at the end |
| MessageReducer.MessageStore.GetAllMessagesSuccess | frontend/src/redux/reducers/message.js:29-32 | messages replaced by the payload |
| MessageReducer.MessageStore.Fail | frontend/src/redux/reducers/message.js:20-23 | loading cleared and the error recorded |
| BlogReducer.BlogStore.constructor | frontend/src/redux/reducers/blog.js:3-5 | loading, every other field absent |
| BlogReducer.BlogStore.Request | frontend/src/redux/reducers/blog.js:8-10 | sets loading only |
| BlogReducer.BlogStore.Fail | frontend/src/redux/reducers/blog.js:16-20 | records the error; only a create failure sets `success` to false |
| BlogReducer.BlogStore.BlogCreateSuccess | frontend/src/redux/reducers/blog.js:11-15 | stores the blog and sets `success` |
| BlogReducer.BlogStore.GetAllBlogsShopSuccess | frontend/src/redux/reducers/blog.js:26-29 | stores the shop's blogs |
| BlogReducer.BlogStore.DeleteBlogSuccess | frontend/src/redux/reducers/blog.js:39-42 | stores the message |
| BlogReducer.BlogStore.GetAllBlogsSuccess | frontend/src/redux/reducers/blog.js:52-55 | stores all blogs |
| BlogReducer.BlogStore.BlogDetailsSuccess | frontend/src/redux/reducers/blog.js:65-68 | stores the details |
| BlogReducer.BlogStore.ClearErrors | frontend/src/redux/reducers/blog.js:74-76 | error cleared |
| BlogReducer.BlogStore.ClearMessages | frontend/src/redux/reducers/blog.js:77-80 | message cleared and `success` false |
| NotificationSchema.KindNamesRoundTrip | backend/model/notification.js:17-21 | each of the ten type names parses back to its kind, and a string parses to a kind exactly when it is that kind's name |
| NotificationSchema.StatusNamesRoundTrip | backend/model/notification.js:12-16 | the three status names round-trip the same way |
| NotificationSchema.Build | backend/model/notification.js:3-48 | creation succeeds exactly with title, message and userId set, a type from the enum and a status from the enum or none; the document keeps the fields, defaults status to "unread" and expires 30 days after creation |
| NotificationSchema.FreshNotificationLivesThirtyDays | backend/model/notification.js:45-60 | `isExpired` is false up to 2 592 000 000 ms after creation and true at every later instant |
| NotificationController.IndexOfId | backend/controller/notification.js:69 | `findById` finds the stored document whose id text equals the cast text, or -1 exactly when none has it |
| NotificationController.FindsIssuedId | backend/controller/notification.js:69 | with distinct issued ids, any route text that casts to a stored document's id, in either case, finds exactly that document |
| NotificationController.UnreadCount | backend/controller/notification.js:146 | the count is at most the collection size, and zero exactly when the user has no unread document |
| NotificationController.MarkAll | backend/controller/notification.js:99 | each document is updated by the `updateMany` rule in place |
| NotificationController.NotificationStore.constructor | backend/controller/notification.js:6 | the collection starts empty |
| NotificationController.NotificationStore.Create | backend/controller/notification.js:14-41 | 400 iff a required field is missing; otherwise 201 exactly when the type is in the enum, appending a document that is unread whatever status the request carried, since the handler never passes one on; otherwise 500 and nothing stored |
| NotificationController.NotificationStore.MarkAsRead | backend/controller/notification.js:68-89 | 500 for an id that cannot be cast and 404 when no document has the cast id, both changing nothing; 403 for another user's document (nothing changed); else 200 with that document's status "read"; the case of the id's digits does not matter |
| NotificationController.NotificationStore.MarkAllAsRead | backend/controller/notification.js:99 | the collection becomes MarkAll for the caller |
| NotificationController.NotificationStore.Delete | backend/controller/notification.js:116-136 | 500 for an id that cannot be cast, 404 (no document has the cast id) or 403 with nothing removed, or 200 with exactly that document removed; the case of the id's digits does not matter |
| NotificationController.NewestIsOwnSortedPage | backend/controller/notification.js:51 | the listing holds only the caller's documents, newest first, min(50, owned) of them, all of them when the caller has at most 50, and every document of the caller left off is no newer than the last one shown |
| NotificationController.NewestLeavesOnlyOlder | backend/controller/notification.js:51 | the page taken from the sorted documents is part of them, and what it leaves out is no newer than its last entry |
| NotificationController.UnreadCountSplits | backend/controller/notification.js:146 | the unread count of a concatenation is the sum of the counts |
| NotificationController.MarkAllClearsOnlyCaller | backend/controller/notification.js:99 | mark-all leaves the caller with no unread document, leaves other users' and archived documents untouched, and every other user's count unchanged |
| NotificationController.MarkOneLowersCount | backend/controller/notification.js:80 | marking one unread document lowers its owner's count by one and no one else's |
| OrderGrouping.ShopIndex | backend/controller/order.js:47 | `has(shopId)` finds the shop's group position, or -1 exactly when no group has it |
| OrderGrouping.ItemsOf | backend/controller/order.js:50 | a shop's items are exactly the cart items with that shop id |
| OrderGrouping.FirstOfShop | backend/controller/order.js:45-51 | the first cart position of a shop, or -1 when absent |
| OrderGrouping.GroupByShop | backend/controller/order.js:43-51 | the loop builds exactly the grouping function's groups |
| OrderGrouping.ItemsOfIsFilter | backend/controller/order.js:45-51 | a shop's items are the cart filtered by shop, in cart order |
| OrderGrouping.GroupsPartitionCart | backend/controller/order.js:43-51 | one group per distinct shop, each holding exactly that shop's items in cart order, every item in some group, groups ordered by the shop's first appearance |
| OrderController.TotalPriceNeverChecked | backend/controller/order.js:20-23 | the validation accepts or rejects a request whatever its `totalPrice`, and always rejects an empty cart and an empty `shippingAddress` or `paymentInfo` |
| OrderController.ProductCheck | backend/controller/order.js:32-40 | no failure exactly when every product id casts and names an existing product; 500 only for an id that cannot be cast, 400 only for a cast id with no product |
| OrderController.CheckProducts | backend/controller/order.js:32-40 | the loop stops at the first bad item with ProductCheck's answer |
| OrderController.MakeOrder | backend/controller/order.js:57-65 | the created order carries the shop's items, the request's fields and status "Processing" |
| OrderController.SellerDraft | backend/controller/order.js:69-76 | the seller notification goes to the shop, type "order", linking to `/dashboard-orders/<order id>` |
| OrderController.BuyerDraft | backend/controller/order.js:79-86 | the buyer notification goes to the buyer, type "order", linking to `/order/<order id>` |
| OrderController.DraftsAcceptedIffIdsPresent | backend/controller/order.js:69-86 | the schema accepts the seller note iff the shop id is set, the buyer note iff the buyer id is set |
| OrderController.OrdersFor | backend/controller/order.js:53-66 | one order per shop group |
| OrderController.OrdersForAt | backend/controller/order.js:56-66 | the i-th created order is numbered base + i and holds the i-th group's items and the request's fields |
| OrderController.NotesFor | backend/controller/order.js:68-86 | two notifications per shop group |
| OrderController.NotesForAt | backend/controller/order.js:68-86 | for the i-th order, first the shop's notification and then the buyer's |
| OrderController.FirstRejected | backend/controller/order.js:68-86 | the first group with a rejected notification: every earlier group has a shop id and the buyer an id, this one lacks one of them, and such a group exists exactly when not every note is accepted |
| OrderController.PartialNotes | backend/controller/order.js:68-86 | a request stopped at group j leaves the note pairs of the groups before j, plus group j's shop note when only its buyer note failed |
| OrderController.OrdersHoldShopItems | backend/controller/order.js:53-66 | one order per shop in first-appearance order, ids counting up, each holding exactly that shop's items |
| OrderController.OrdersSplitCart | backend/controller/order.js:43-66 | no two orders share a shop and every cart item lands in one of them |
| OrderController.NotesAcceptedMeansAllBuild | backend/controller/order.js:68-86 | every note of the request is accepted exactly when all shop ids and the buyer id are set |
| OrderController.RestockKeepsTotals | backend/controller/order.js:340-353 | restocking creates no product, adds each returned quantity to stock, takes it off `sold_out`, and keeps their sum |
| OrderController.Restocked | backend/controller/order.js:340-353 | restocking creates and removes no product |
| OrderController.QtyFor | backend/controller/order.js:341-343 | a product no item's cast id names gets nothing back, and non-negative quantities give back a non-negative amount |
| OrderController.IndexOfOrder | backend/controller/order.js:161 | `findById` finds the order whose id text equals the cast text, or -1 exactly when none has it |
| OrderController.FindsOrderById | backend/controller/order.js:161 | in a store numbered by position, any route text that casts to an order's id, in either case, finds that order |
| OrderController.StatusDraft | backend/controller/order.js:172-179 | the status note goes to the buyer, type "order_update", shop of the first item, link `/order/<id>` |
| OrderController.OrderStore.constructor | backend/controller/order.js:6-9 | no orders and no notifications, given the product catalogue |
| OrderController.OrderStore.PlaceOrder | backend/controller/order.js:56-86 | one order is created; both notes are stored exactly when both are accepted; on a rejection the shop note stays exactly when it was accepted and only the buyer note failed |
| OrderController.OrderStore.PlaceGroup | backend/controller/order.js:56-86 | one pass of the per-shop loop extends the orders and notes of the shops before it by this shop's order and notes; a rejected note rejects the whole request, this group is then the first rejected one, and the notes are exactly PartialNotes |
| OrderController.OrderStore.PlaceOrders | backend/controller/order.js:53-103 | all per-shop orders and notes are appended when every note is accepted; otherwise, with no transaction, the orders up to and including the first rejected group and PartialNotes stay; earlier orders untouched |
| OrderController.OrderStore.CreateOrder | backend/controller/order.js:13-112 | 400 for an incomplete request (an empty cart, an empty `shippingAddress` or `paymentInfo`, or a missing field) and 400/500 from the product check, storing nothing; 201 exactly when the check passes and every note is accepted, with one order per shop appended; otherwise 500 leaving the orders up to the first rejected group and PartialNotes |
| OrderController.OrderStore.UpdateOrderStatus | backend/controller/order.js:156-207 | 500 for an id that cannot be cast and 404 when no order has the cast id, both changing nothing; otherwise the status is saved and a buyer notification stored (200), or 500 when the schema refuses it, with the status already saved |
| OrderController.OrderStore.RequestRefund | backend/controller/order.js:272-305 | 500 for an id that cannot be cast and 400 when no order has the cast id, both changing nothing; otherwise 200 with the status as sent |
| OrderController.OrderStore.RefundSuccess | backend/controller/order.js:309-357 | 500 for an id that cannot be cast and 400 when no order has the cast id, both changing nothing; otherwise the status is saved, and "Refund Success" restocks every cart item through its cast id |
| OrderController.OrderStore.Restock | backend/controller/order.js:340-353 | the restock loop leaves the products as Restocked describes: each item's quantity goes back to the product its cast id names, and other items are skipped |
| ObjectIds.IdText | backend/controller/order.js:75 | an issued id is written as 24 hexadecimal digits, which the cast accepts |
| ObjectIds.HexInjective | backend/controller/order.js:161 | numbers below 16^width have distinct digit strings |
| ObjectIds.IdTextInjective | backend/controller/order.js:161 | ids below 16^24 have distinct texts, so a lookup by text finds the document the text came from |
| ObjectIds.Cast | backend/controller/notification.js:69 | the cast succeeds exactly for twelve one-byte characters or 24 hexadecimal digits, and gives 24 lower-case digits; 24 digits are read whatever their case |
| ObjectIds.SpellingsOfIssuedId | backend/controller/order.js:161 | every spelling of an issued id that differs from its text only in letter case casts to that id |
| Payment.SignedFieldNamesMatchMessage | backend/controller/payment.js:20-30 | the signed message lists the fields in `signed_field_names` order, and that header is the field names joined by commas |
| Payment.SignatureMessageInjective | backend/controller/payment.js:22 | with comma-free amount and uuid, the signed message determines all three fields |
| Payment.Sanitize | backend/controller/payment.js:64 | the result keeps only letters, digits and hyphens, and is the id itself exactly when nothing had to go |
| Payment.SanitizeIsFilter | backend/controller/payment.js:64 | sanitising is the character filter, a subsequence of the id, and idempotent |
| Payment.TransactionUuid | backend/controller/payment.js:64 | the uuid starts with "order-" and holds only uuid characters |
| Payment.FirstOccurrenceFrom | backend/controller/payment.js:148 | the first position at or after `from` where the pattern occurs, or -1 when none |
| Payment.RemoveFirst | backend/controller/payment.js:148 | `replace` with a string removes the first occurrence only, or nothing |
| Payment.UuidRoundTrip | backend/controller/payment.js:148 | recovering the id from a uuid gives the sanitised id, and the id itself exactly when it was already clean |
| Payment.Settle | backend/controller/payment.js:158-173 | "COMPLETE" records Paid with the eSewa payment info; any other status records Failed and keeps the payment info |
| Payment.StatusFor | backend/controller/payment.js:205-212 | "COMPLETE" maps to Paid, "PENDING"/"AMBIGUOUS" to Pending, everything else to Failed |
| Payment.VerifyAndStatusCheckAgreeExceptPending | backend/controller/payment.js:159-212 | `/verify` and `/status-check` record the same status exactly when the status is not PENDING or AMBIGUOUS |
| Payment.StatusCheckAsWritten | backend/controller/payment.js:185-227 | as written: an id that cannot be cast raises, one whose cast text names no order gets 404, and every stored order (in either case) raises at the unimported `axios` |
| Payment.PaymentLedger.constructor | backend/controller/payment.js:5 | the ledger holds the given payment records |
| Payment.PaymentLedger.Verify | backend/controller/payment.js:104-180 | missing response 400; undecodable or uncastable uuid redirects to the error page; bad signature 400; no order under the cast id 404; otherwise that order is settled and the success or failure page follows |
| Payment.PaymentLedger.StatusCheck | backend/controller/payment.js:185-227 | an id that cannot be cast raises, no order under the cast id 404; otherwise the status is mapped and saved with 200, COMPLETE also stores the reference id and raises without saving when there is no payment info |
| NotificationViews.FormatTimeAgo | frontend/src/components/Notifications/NotificationsDropdown.jsx:31-57 | seconds below 60 s, minutes below an hour, hours below a day, days below 30 days, then months (each an iff), each amount the floored quotient, and at least one outside seconds |
| NotificationViews.PluralRule | frontend/src/components/Notifications/NotificationsDropdown.jsx:31-57 | the text ends in "s ago" exactly for seconds or an amount above one |
| NotificationViews.DropdownLink | frontend/src/components/Notifications/NotificationsDropdown.jsx:101-112 | order and payment go to `/user/order/<clickAction>`, product to `/product/<clickAction>` (rendering a missing value as "undefined"), else "#" |
| NotificationViews.DropdownBadge | frontend/src/components/Notifications/NotificationsDropdown.jsx:117-126 | the badge shows the count exactly when it is positive |
| NotificationViews.TabView | frontend/src/pages/NotificationsPage.jsx:56-61 | "all" shows the list; "unread" only unread documents; any other tab only read ones; always a subsequence of the list |
| NotificationViews.TabsSplitByStatus | frontend/src/pages/NotificationsPage.jsx:56-61 | a document is on the unread tab iff listed and unread, on another tab iff listed and read, never on both |
| NotificationViews.PageLink | frontend/src/pages/NotificationsPage.jsx:45-54 | order links use the order id, product links the product id, all else "#" |
| NotificationViews.LinkRulesDiffer | frontend/src/pages/NotificationsPage.jsx:45-54 | a payment notification links from the dropdown but not from the page, and order links agree exactly when clickAction equals the order id |
| NotificationViews.FormatTime | frontend/src/components/Layout/UserNotificationBell.jsx:56-65 | "Just now" under a minute, minutes under an hour, hours under a day, else the date (iffs), with the floored amounts |
| NotificationViews.BellAgreesWithDropdown | frontend/src/components/Layout/UserNotificationBell.jsx:56-65 | the bell and the dropdown pick minutes and hours for the same elapsed times and with the same amounts |
| NotificationViews.BadgeLabel | frontend/src/components/Layout/UserNotificationBell.jsx:84-88 | no badge iff the count is not positive, "9+" above nine, else the one-digit count |
| NotificationViews.Bell.ForShop | frontend/src/components/Shop/NotificationToast.jsx:67-72 | the shop bell always shows and starts closed |
| NotificationViews.Bell.ForUser | frontend/src/components/Layout/UserNotificationBell.jsx:21-72 | the user bell shows exactly for a buyer and starts closed |
| NotificationViews.Bell.Toggle | frontend/src/components/Layout/UserNotificationBell.jsx:76-81 | toggling flips the panel and marks all read exactly when opening with unread toasts |
| NotificationViews.Bell.OpenEntry | frontend/src/components/Shop/NotificationToast.jsx:106-110 | clicking an entry marks it read exactly when it has a link |
| NotificationViews.Bell.MouseDown | frontend/src/components/Layout/UserNotificationBell.jsx:23-35 | a mousedown outside a rendered bell closes the panel without marking anything; otherwise nothing changes (the shop bell's handler is the same) |
| NotificationViews.FirstUnread | frontend/src/components/UserNotificationToast.jsx:27-43 | nothing exactly when all are read; otherwise the first unread toast |
| NotificationViews.UserToast.constructor | frontend/src/components/UserNotificationToast.jsx:17-19 | nothing visible, not exiting, not rendering, no exit timer pending |
| NotificationViews.UserToast.SyncUserType | frontend/src/components/UserNotificationToast.jsx:22-24 | renders exactly for a buyer |
| NotificationViews.UserToast.Refresh | frontend/src/components/UserNotificationToast.jsx:27-43 | a rendering toast with nothing visible shows the first unread toast; otherwise nothing changes |
| NotificationViews.UserToast.BeginDismiss | frontend/src/components/UserNotificationToast.jsx:82-84 | the exit animation starts and a timer is queued that captured the toast shown now |
| NotificationViews.UserToast.FinishDismiss | frontend/src/components/UserNotificationToast.jsx:84-90 | the oldest timer marks the toast it captured (even one already marked by a click), then hides whatever is shown and ends the exit; with no timer pending nothing changes |
| NotificationViews.UserToast.Click | frontend/src/components/UserNotificationToast.jsx:94-99 | clicking marks the shown toast read and hides it |
| NotificationViews.SecondMarkBreaksCount | frontend/src/components/UserNotificationToast.jsx:82-99 | a click during the exit marks the toast, then the exit timer marks it again: the first mark keeps an exact count exact, the second leaves it below the unread toasts |
| OrderViews.Lookup | frontend/src/components/UserOrderDetails.jsx:32 | `find` returns the first order with the id, nothing when orders are not loaded or none matches |
| OrderViews.UserBar | frontend/src/components/UserOrderDetails.jsx:107-119 | each buyer step fills its number of quarters, Delivered and refund statuses fill all four, refund statuses exactly are red, unknown statuses fill none |
| OrderViews.RefundOfferedIffDelivered | frontend/src/components/UserOrderDetails.jsx:288 | the refund button is offered exactly for a delivered order |
| OrderViews.ChoiceFor | frontend/src/components/UserOrderDetails.jsx:146-174 | edit for a reviewed item, write for an unreviewed delivered one, otherwise wait (iffs) |
| OrderViews.OwnReview | frontend/src/components/UserOrderDetails.jsx:155-159 | the caller's first review of the item, or nothing exactly when there is none |
| OrderViews.ReviewForm.constructor | frontend/src/components/UserOrderDetails.jsx:23 | closed, with rating 1 and an empty comment |
| OrderViews.ReviewForm.OpenEdit | frontend/src/components/UserOrderDetails.jsx:155-159 | opens on the item and prefills rating and comment from the caller's own review when there is one |
| OrderViews.ReviewForm.OpenWrite | frontend/src/components/UserOrderDetails.jsx:146-174 | opens on the item |
| OrderViews.ReviewForm.PickStar | frontend/src/components/UserOrderDetails.jsx:213-231 | after picking star i, exactly stars 1..i are filled |
| OrderViews.ReviewForm.Submitted | frontend/src/components/UserOrderDetails.jsx:53-55 | closes and resets to rating 1 (one star filled) and an empty comment |
| OrderViews.ProgressWidth | frontend/src/components/Shop/OrderDetails.jsx:77-94 | the width is one of the seven steps, 100 exactly for Delivered, 0 exactly off the fulfilment statuses |
| OrderViews.ProgressGrowsAlongOptions | frontend/src/components/Shop/OrderDetails.jsx:220-228 | the width grows strictly along the six fulfilment options and is 0 for the two refund options |
| OrderViews.BarsAgreeOnSteps | frontend/src/components/UserOrderDetails.jsx:107-119 | the buyer's bar orders the four buyer steps as the seller's width does |
| OrderViews.BarColor | frontend/src/components/Shop/OrderDetails.jsx:96-113 | green exactly for Delivered, amber otherwise |
| OrderViews.RefundRequestHidesButtons | frontend/src/components/Shop/OrderDetails.jsx:238 | a refund request hides the buyer's refund button and the seller's, which shows for every fulfilment status, and turns the buyer's bar red |
| OrderViews.LabelFor | frontend/src/components/Shop/OrderDetails.jsx:138-151 | Paid exactly when completed or paid, Cash on Delivery for an unpaid COD order, Pending otherwise |
| OrderViews.SettledPaymentLabel | frontend/src/components/Shop/OrderDetails.jsx:138-151 | after a COMPLETE verification the seller sees Paid |
| Blogs.SameCategory | frontend/src/pages/BlogDetailsPage.jsx:30 | exactly the other posts of the same category are kept, in list order |
| Blogs.Related | frontend/src/pages/BlogDetailsPage.jsx:29-32 | with posts loaded, the first three other same-category posts in list order; otherwise the previous value |
| Blogs.RelatedAreSameCategoryOthers | frontend/src/pages/BlogDetailsPage.jsx:29-32 | at most three related posts, none the current one, all of its category, in list order |
| Blogs.Split | frontend/src/pages/BlogDetailsPage.jsx:92 | one more piece than separators, none containing the separator |
| Blogs.SplitJoin | frontend/src/pages/BlogDetailsPage.jsx:92 | joining the pieces with the separator gives the text back |
| Blogs.Blocks | frontend/src/pages/BlogDetailsPage.jsx:92-100 | one block per line, empty lines becoming line breaks and the others paragraphs |
| Blogs.BlocksKeepContent | frontend/src/pages/BlogDetailsPage.jsx:92-100 | reading the blocks back gives the content unchanged |
| Blogs.Excerpt | frontend/src/components/Blog/BlogCard.jsx:35-38 | content of at most 150 characters unchanged; longer content cut to 150 plus "..."; never above 153 and always a prefix of the content |
| Blogs.OrText | frontend/src/components/Shop/AllBlogs.jsx:64-66 | the value when set and non-empty, otherwise the fallback |
| Blogs.RowFor | frontend/src/components/Shop/AllBlogs.jsx:62-69 | each row field is the blog's or its fallback ("No title", "Unknown", "Draft", 0, now) |
| Blogs.Rows | frontend/src/components/Shop/AllBlogs.jsx:61-70 | one row per blog in order, or none when blogs are not loaded |
| Blogs.DropSpaces | frontend/src/components/Shop/AllBlogs.jsx:37 | drops exactly the leading whitespace run |
| Blogs.Slug | frontend/src/components/Shop/AllBlogs.jsx:37 | the slug contains no whitespace |
| Blogs.SlugKeepsText | frontend/src/components/Shop/AllBlogs.jsx:37 | every non-space character of the title appears in the slug, in order |
| Blogs.SlugOfCleanTitle | frontend/src/components/Shop/AllBlogs.jsx:37 | a title without whitespace is its own slug |
| Blogs.DropSpacesRun | frontend/src/components/Shop/AllBlogs.jsx:37 | a whitespace run before a non-space or the end is dropped whole |
| Blogs.SlugSpaceRun | frontend/src/components/Shop/AllBlogs.jsx:37 | a non-empty whitespace run before a non-space or the end becomes one hyphen |
| Blogs.SlugRunRule | frontend/src/components/Shop/AllBlogs.jsx:37 | a space-free word, a non-empty whitespace run and a rest not starting with whitespace slug to the word, one hyphen and the slug of the rest |
| Blogs.PreviewPath | frontend/src/components/Shop/AllBlogs.jsx:37-39 | the preview path starts "/blog/" and has no whitespace after it |
| ProductsPage.ForCategory | frontend/src/pages/ProductsPage.jsx:21-29 | all products without a category parameter, otherwise only that category |
| ProductsPage.CategoryMembership | frontend/src/pages/ProductsPage.jsx:26 | a product is shown iff it is listed with that category, in list order |
| ProductsPage.FilteredKeepsExactly | frontend/src/pages/ProductsPage.jsx:55-74 | the three chained filters equal one filter by the conjunction, a subsequence of all products |
| ProductsPage.SortOrders | frontend/src/pages/ProductsPage.jsx:31-53 | each sort option permutes the data into its order (price up, price down, rating down, newest first); any other option resets to all products |
| ProductsPage.Listing.constructor | frontend/src/pages/ProductsPage.jsx:15-19 | no data, sort "default", price 0..100000, category "All", rating 0 |
| ProductsPage.Listing.Load | frontend/src/pages/ProductsPage.jsx:21-29 | data is the category view of the loaded products |
| ProductsPage.Listing.SetFilters | frontend/src/pages/ProductsPage.jsx:17-19 | the filter inputs are stored |
| ProductsPage.Listing.HandleFilter | frontend/src/pages/ProductsPage.jsx:55-74 | data holds exactly the products within price, category and rating, in list order |
| ProductsPage.Listing.HandleSort | frontend/src/pages/ProductsPage.jsx:31-53 | records the option; sorts a permutation of the current data, or resets to all products |
| ProductCard.AddToCart | frontend/src/components/Route/ProductDetailsCard/ProductDetailsCard.jsx:33-46 | nothing is added iff the product is in the cart or out of stock; otherwise the line carries the count |
| ProductCard.RatingParts | frontend/src/components/Route/ProductDetailsCard/ProductDetailsCard.jsx:67-72 | no average for missing or empty reviews; otherwise the rating sum over a positive count |
| ProductCard.Card.constructor | frontend/src/components/Route/ProductDetailsCard/ProductDetailsCard.jsx:17-18 | count 1, heart off |
| ProductCard.Card.Decrement | frontend/src/components/Route/ProductDetailsCard/ProductDetailsCard.jsx:23-27 | the count goes down only above one, so it stays at least one |
| ProductCard.Card.Increment | frontend/src/components/Route/ProductDetailsCard/ProductDetailsCard.jsx:29-31 | the count goes up by one |
| ProductCard.Card.SyncWishlist | frontend/src/components/Route/ProductDetailsCard/ProductDetailsCard.jsx:48-54 | the heart is on exactly when the product is in the wishlist |
| ProductCard.Card.ClickHeart | frontend/src/components/Route/ProductDetailsCard/ProductDetailsCard.jsx:56-64 | the heart flips, removing when it was on and adding when off |
| ProductCard.Card.AddToCartClicked | frontend/src/components/Route/ProductDetailsCard/ProductDetailsCard.jsx:33-46 | the added line, if any, is AddToCart's with a quantity of at least one |
| ProductImages.LastSegment | frontend/src/components/Shop/EditProduct.jsx:96 | `split('/').pop()` is the slash-free suffix after the last slash |
| ProductImages.BeforeDot | frontend/src/components/Shop/EditProduct.jsx:96 | `split('.')[0]` is the dot-free prefix before the first dot |
| ProductImages.PublicId | frontend/src/components/Shop/EditProduct.jsx:96 | the public id has neither slashes nor dots |
| ProductImages.PublicIdOfPath | frontend/src/components/Shop/EditProduct.jsx:96 | for `dir/stem.ext` with a clean stem the public id is the stem |
| ProductImages.Payload | frontend/src/components/Shop/EditProduct.jsx:90-98 | one entry per image: data URLs sent inline, other URLs as hosted with their public id |
| ProductImages.PayloadKeepsImages | frontend/src/components/Shop/EditProduct.jsx:90-98 | every image's text is recoverable from its payload entry |
| ProductImages.Editor.constructor | frontend/src/components/Shop/EditProduct.jsx:43 | no images |
| ProductImages.Editor.Load | frontend/src/components/Shop/EditProduct.jsx:43 | the images become the product's URLs |
| ProductImages.Editor.ChooseFiles | frontend/src/components/Shop/EditProduct.jsx:58-70 | the images are cleared and then hold exactly the loaded files, in order |
| Checkout.SubtotalConcat | frontend/src/components/Checkout/Checkout.jsx:33 | the subtotal of two carts together is the sum of their subtotals |
| Checkout.Eligible | frontend/src/components/Checkout/Checkout.jsx:104 | exactly the coupon shop's lines are kept, in cart order |
| Checkout.SubtotalSplitsByShop | frontend/src/components/Checkout/Checkout.jsx:104-109 | the subtotal is the shop's lines plus the others |
| Checkout.NonNegativeSubtotal | frontend/src/components/Checkout/Checkout.jsx:33 | lines of non-negative quantity and price give a non-negative subtotal |
| Checkout.EligibleWithinSubtotal | frontend/src/components/Checkout/Checkout.jsx:104-109 | the shop's lines cost between zero and the subtotal |
| Checkout.Form.constructor | frontend/src/components/Checkout/Checkout.jsx:14-25 | step 1, empty fields, no zip, no coupon, no discount |
| Checkout.Form.SubmitShippingInfo | frontend/src/components/Checkout/Checkout.jsx:41-47 | moves to step 2 exactly when every address field is filled |
| Checkout.Form.StartPayment | frontend/src/components/Checkout/Checkout.jsx:50-65 | nothing for a missing or empty cart; otherwise the cart, its subtotal and the discount (0 when none) |
| Checkout.Form.ApplyCoupon | frontend/src/components/Checkout/Checkout.jsx:94-122 | a failed lookup changes nothing; an unknown coupon or one for another shop only clears the input; a valid coupon stores the discount as its percentage of the shop's lines |
| Checkout.DiscountBounded | frontend/src/components/Checkout/Checkout.jsx:109-110 | a coupon of 0..100 percent takes off between nothing and the shop's lines, and never more than the subtotal |

## Left out

- Transport: socket.io, HTTP, Express routing, middleware and MongoDB
  persistence are not modelled. Handlers are methods over in-memory
  collections, and every `await` completes in program order.
- Emitted socket events of the backend order routes (`newOrder`,
  `orderPlaced`, `orderStatusUpdated`, `refundRequested`, `refundApproved`)
  and of `/create-notification` are not recorded. The relay's own
  emissions are.
- Timers are not modelled as timers. The five-minute toast expiry is the
  separate `ExpireId` call. The toast's 300 ms exit delay is the queue of
  captured toasts that `BeginDismiss` fills and `FinishDismiss` drains.
- The toast's 5-second auto-dismiss has no counterpart, because it never
  fires: the effect that sets it also sets the visible toast, which
  re-runs the effect, whose cleanup clears the timer, and the re-run starts
  none. Its callback would also see no visible toast.
- Clocks and `Date` formatting are not modelled. Times are integer
  milliseconds passed in, and `toLocaleDateString`/`toLocaleString` is left
  as the `Dated` case.
- HMAC-SHA256 and base64 are not modelled. The signature is an arbitrary
  function of the message, and decoding is the three-way `ResponseParam`.
- `/payment/process` is not modelled. Its amounts are floating point with
  `toFixed(2)`; the signed message and uuid it builds are modelled.
- Floating-point money is not modelled:
  - Checkout's shipping (10%) and total (`toFixed`) are not modelled, and
    prices are integers.
  - Checkout.Form.ApplyCoupon keeps the discount in hundredths
    (`eligible × value`) rather than dividing by 100 in floating point.
  - ProductCard.RatingParts returns the sum and count rather than the
    one-decimal average.
- OrderViews.LineTotal is not modelled beyond its product: the seller
  page's `toFixed(2)` on a float is left out.
- The refund restock is unawaited and asynchronous in the source, and is
  modelled as completing. An item id that cannot be cast, or a missing
  product (`product` null), makes that callback throw;
  OrderController.OrderStore.RefundSuccess skips such an item instead.
- The capped provider's mock notification generator is development-only
  and not modelled.
- CappedContext.NotificationProvider.Receive: every keeping listener
  stamps its toast with the one arrival id and time passed in. Each
  listener calls `Date.now()` itself, so the stamps could differ by a
  millisecond.
- Neither provider's unmount is modelled, so the cleanup that unmounting
  runs, which disconnects or closes the last socket, is missing.
- Redux action creators (`redux/actions/*.js`) are not modelled. They are
  HTTP calls that dispatch the actions whose reducers are modelled.
- Icon, colour and CSS choices are not modelled, other than the progress
  colours and widths and the badges.
- ProductsPage.SortOrders: JavaScript's sort is stable. The model proves
  order and permutation, not which of two equal-key products comes first.
- ProductsPage.Listing.HandleFilter: `allProducts` is assumed loaded. The
  source's `[...allProducts]` throws while it is still undefined.
- Strings are sequences of characters, not UTF-16 code units. `length`,
  `substring` and the excerpt count characters.
- Blogs.Slug: the `\s` class is modelled as the 25 ECMAScript
  white-space and line-terminator characters.
- User ids and socket ids are strings. A route's `:id` is a string, and
  the ObjectId cast is that of the bson 4 releases used by Mongoose 5 and
  6, which the routes' `notification.remove()` needs: twelve characters
  that are twelve UTF-8 bytes, or 24 hexadecimal digits of either case. A
  failed cast is the catch block's 500. Later bson releases reject
  twelve-character strings; that behaviour is not modelled. The
  database's n-th id is written as the 24 lower-case hexadecimal digits
  of n, and lookups compare the cast text with it.
- ProductsPage.Filtered and ProductsPage.SortOrders: a product's
  `ratings` is an average and can be fractional, but the model keeps it
  as an integer, so a fractional rating against `minRating`, and the
  order of two ratings that differ by less than one, are not modelled.

## Findings

| source | as written | input that shows it | evidently intended | confidence | as-written member | corrected member |
|---|---|---|---|---|---|---|
| backend/controller/payment.js:201 | `axios.get` is called, but the file never imports `axios` (lines 1-5), so the call throws a ReferenceError; `ErrorHandler` (lines 96 and 224) is not imported either, so each catch block throws in turn and the error reaches the error middleware without the intended message | any well-formed order id of a stored order, e.g. an existing 24-hex id | query the eSewa status endpoint, map the reply to Paid/Pending/Failed, save it and answer 200 | not executed | Payment.StatusCheckAsWritten | Payment.PaymentLedger.StatusCheck |
