# A chat, task and order app: document store, pages and session

This project models the bookkeeping at the core of a small messenger. The app has a
FastAPI back end (`backend/server.py`) that stores users, chats, messages, tasks,
orders, SOS alerts and uploaded files in MongoDB collections. It also has a React
front end, whose pages, route guards, auth context and HTTP client decide what is
sent and what is shown.

Modules, one per source file plus shared ones:

- `Wrappers`: `Option` and `Result`.
- `Text`: the string operations the code relies on. This covers JavaScript `trim`, lower/upper case, `includes`, a prefix, and decimal digits.
- `Base64`: base64 encoding and decoding as in section 4 of RFC 4648.
- `Sorting`: a stable insertion sort by a total preorder.
- `Documents`: documents as maps from field names to values, and collections as sequences in natural order. It covers the equality filters `find_one`, `find` and `update_one` with `$set`, sorting on `created_date`, `to_list(n)`, the `None`-dropping patch, and `serialize_doc`.
- `Server`: the handlers of `backend/server.py`. The collections are fields of the class `Database`, whose methods insert and update them.
- `Orders` (the order cart of `OrdersPage.jsx`), `ChatRoom` (`ChatRoomPage.jsx`), `Chats` (`ChatsPage.jsx`).
- `Routes` (`createPageUrl`), `Layout` (the tab bar), `App` (the route table and its guards).
- `AuthContext` (the `AuthProvider` state) and `ApiClient` (the token storage of the HTTP client).

Some inputs are parameters of the model:

- Everything that comes from I/O, the clock, randomness or a library. This covers uuids, `datetime.utcnow()` strings, the bcrypt hash and check, the JWT claims, the `ru-RU` date and time labels, and `Math.random`.
- The outcome of every HTTP call, which is a `Success`/`Failure` value.

## Model

| member | source | states |
|---|---|---|
| Documents.FirstMatch | backend/server.py:124 | the position of the first document matching the filter; no earlier document matches |
| Documents.FindOne | backend/server.py:124 | `find_one`: the first matching document, or none; `FindOneSpec` states it |
| Documents.FindOneSpec | backend/server.py:124 | `find_one` finds nothing exactly when no document matches; otherwise it returns the first match, which is a stored document |
| Documents.SetFields | backend/server.py:178 | `$set` keeps the document's other fields, overwrites exactly the supplied ones, and adds no other key |
| Documents.UpdateOneFrame | backend/server.py:178 | `update_one` changes only the first matching document, which becomes its `$set` result; with no match nothing changes |
| Documents.UpdateOne | backend/server.py:178 | `update_one` with `$set`: same length, only the first match changes; `UpdateOneFrame` states the frame |
| Documents.Find | backend/server.py:232 | `find` keeps exactly the matching documents, each as often as it is stored, and nothing else |
| Documents.LexLeTotal | backend/server.py:232 | the string order on `created_date` is total |
| Documents.LexLeTransitive | backend/server.py:232 | the string order on `created_date` is transitive |
| Documents.InOrderTotal | backend/server.py:232 | both sort directions on `created_date` are total |
| Documents.InOrderTransitive | backend/server.py:232 | both sort directions on `created_date` are transitive |
| Documents.OrderIsTotalPreorder | backend/server.py:232 | the ordering used by `sort("created_date", ±1)` is a total preorder |
| Documents.SortedByCreated | backend/server.py:232 | the sorted result is in `created_date` order |
| Documents.Take | backend/server.py:232 | `to_list(n)` returns the first `min(n, length)` documents |
| Documents.Select | backend/server.py:232 | `find(q).sort("created_date", ±1).to_list(n)`; `SelectFromMatches` and `SelectOrdered` state what it returns |
| Documents.SelectFromMatches | backend/server.py:232 | a listing returns only matching documents, at most the limit, and all of them when fewer match |
| Documents.SelectOrdered | backend/server.py:262-265 | a listing is sorted, and no matching document left out comes earlier in that order than one returned |
| Documents.DropNone | backend/server.py:176 | the patch keeps exactly the fields whose value is not `None`, with their values |
| Documents.Serialize | backend/server.py:134-138 | with `_id`, the result has `id = str(_id)`, no `_id`, and every other field unchanged; otherwise the document is returned as it is |
| Documents.SerializeFound | backend/server.py:134-138 | a missing document stays missing; a found one is serialized |
| Documents.SerializeIdempotent | backend/server.py:134-138 | serializing twice is serializing once |
| Documents.SerializeInvertible | backend/server.py:134-138 | a document whose `_id` is a string can be rebuilt from its serialization |
| Sorting.Insert | backend/server.py:232 | inserting into the sorted list adds exactly that element |
| Sorting.ConsSorted | backend/server.py:232 | a sorted list stays sorted behind an element that precedes it |
| Sorting.InsertSorted | backend/server.py:232 | inserting into a sorted list keeps it sorted |
| Sorting.SortBy | backend/server.py:232 | sorting is a permutation of its input |
| Sorting.SortBySorted | backend/server.py:232 | the sort's result is sorted |
| Sorting.PrefixOfSorted | backend/server.py:232 | a prefix of a sorted list is sorted, and nothing left out precedes what it holds |
| Server.ItemsValue | backend/server.py:85-93 | the stored order items are the items of the body, in order |
| Server.NewUserDoc | backend/server.py:147-154 | the stored user document, with the password hash; `LoginAfterRegister` and `RegisteredEmailTaken` use it |
| Server.NewMessageDoc | backend/server.py:247-256 | the stored message document; `Server.Database.CreateMessage` states what is inserted and returned |
| Server.NewFileDoc | backend/server.py:190-197 | the stored file document with base64 data; `UploadedFileServed` states the round trip |
| Server.AppendKeepsUniqueIds | backend/server.py:156 | inserting a document under a fresh `_id` keeps the ids unique |
| Server.ApplyPatch | backend/server.py:176-178 | a patch keeps the number of documents |
| Server.PatchFrame | backend/server.py:176-178 | an all-`None` patch writes nothing; otherwise only the first match changes, and only in the non-`None` fields |
| Server.OwnedMatchIsById | backend/server.py:239 | with unique ids, the owned filter matches the document with that `_id` exactly when the caller owns it |
| Server.PatchKeepsFirstById | backend/server.py:235-241 | patching a document by fields other than `_id` keeps it the first one with its `_id` |
| Server.GuardedPatchResponse | backend/server.py:235-241 | a caller who does not own the chat or task changes nothing and gets the stored document back; an owner gets the patched document |
| Server.FirstMatchIs | backend/server.py:124 | the first match is the match with no earlier match |
| Server.UpdateKeepsUniqueIds | backend/server.py:178 | a `$set` without `_id` keeps the ids unique |
| Server.CurrentUser | backend/server.py:117-132 | a caller is known exactly when the token carries a `sub` naming a stored user, whose document gains `id`; a missing bearer gives 403, and every other failure 401 |
| Server.Login | backend/server.py:161-168 | an unknown email gives 401; a token for the user's `_id` is issued exactly when the password verifies |
| Server.MeRevealsPasswordHash | backend/server.py:170-172 | a user who registers and then calls `get_me` gets the stored password hash back |
| Server.Me | backend/server.py:170-172 | `get_me`: the serialized caller document as stored; `MeRevealsPasswordHash` shows it carries the hash |
| Server.PublicMe | backend/server.py:170-172 | the profile without `password`, present exactly when `get_me` succeeds, and otherwise the same fields |
| Server.LoginAfterRegister | backend/server.py:141-168 | after a registration, logging in with its email succeeds exactly when the password verifies against the stored hash |
| Server.RegisteredEmailTaken | backend/server.py:143-145 | once an email is registered, a second registration with it is rejected |
| Server.SerializeAll | backend/server.py:232 | each listed document is serialized |
| Server.ListOwned | backend/server.py:230-233 | the caller's documents only, newest `created_date` first, at most 100, serialized |
| Server.SerializedSelection | backend/server.py:230-233 | a serialized listing under a filter on fields other than `_id` has as many documents as match, up to the limit, each still matching and without `_id`, in sort order |
| Server.SelectionMatches | backend/server.py:232 | serializing keeps an owner or chat filter matching, and removes `_id` |
| Server.ListMessages | backend/server.py:260-266 | filtered by `chat_id` only when one is given, oldest first, at most 1000, serialized |
| Server.MessageQuery | backend/server.py:262-264 | the filter of `list_messages`; `ListMessages` states that a missing or empty `chat_id` matches every message |
| Server.FindAll | backend/server.py:262 | the empty filter finds the whole collection in order |
| Server.AfterLastDot | backend/server.py:187 | the text after the last '.', which holds no '.' |
| Server.FileExt | backend/server.py:187 | the extension after the last '.', or "jpg" without a '.' |
| Server.FileUrl | backend/server.py:200 | `/api/files/{file_id}`; `Server.Database.Upload` states that the URL names the new file |
| Server.GetFile | backend/server.py:203-211 | an unknown id gives 404; a found file is served exactly when its `data` is a string that decodes and it has a `content_type`, and then with the decoded bytes and that content type |
| Server.UploadedFileServed | backend/server.py:183-211 | a file uploaded under a fresh id is served back with exactly the uploaded bytes |
| Server.Database.constructor | backend/server.py:28-31 | all collections start empty |
| Server.Database.Register | backend/server.py:141-159 | 400 and no insert when the email is taken; otherwise exactly the new user is appended and a token for its id is returned |
| Server.Database.UpdateMe | backend/server.py:174-180 | the caller's document is patched, and the patched document is returned |
| Server.Database.UpdateChat | backend/server.py:235-241 | the patch applies only to a chat the caller owns; the reply is read by `_id` alone |
| Server.Database.UpdateTask | backend/server.py:291-297 | the patch applies only to a task the caller owns; the reply is read by `_id` alone |
| Server.Database.CreateChat | backend/server.py:214-228 | the `_id` index stays unique, the new chat document is appended, and it is returned serialized |
| Server.NewChatServed | backend/server.py:214-228 | the served new chat has the fresh `id`, is owned by the caller, keeps the name and presence sent, and has `last_message` and `time` empty and `unread_count` 0 |
| Server.Database.CreateTask | backend/server.py:269-284 | the `_id` index stays unique, the new task document is appended, and it is returned serialized |
| Server.NewTaskServed | backend/server.py:269-284 | the served new task has the fresh `id`, is owned by the caller, has no start or end time, duration 0, and status "pending" by default |
| Server.Database.CreateMessage | backend/server.py:244-258 | the message is appended with the server's timestamps and returned serialized |
| Server.Database.CreateOrder | backend/server.py:300-313 | the `_id` index stays unique, the new order document is appended, and it is returned serialized |
| Server.NewOrderServed | backend/server.py:300-313 | the served new order has the fresh `id`, is owned by the caller, keeps the number, items and item count as sent, and has status "processing" by default |
| Server.Database.CreateSos | backend/server.py:321-332 | the `_id` index stays unique, the new alert document is appended, and it is returned serialized |
| Server.NewSosServed | backend/server.py:321-332 | the served new alert has the fresh `id`, is owned by the caller, keeps the location sent, and has status "sent" by default |
| Server.Database.Upload | backend/server.py:183-201 | the bytes are stored base64-encoded under the fresh id, and the reply is `/api/files/<id>` |
| Base64.SextetChar | backend/server.py:194 | a six-bit value never encodes as padding |
| Base64.CharSextet | backend/server.py:210 | decoding a character inverts encoding it |
| Base64.SextetRoundTrip | backend/server.py:194-210 | every six-bit value round-trips through its character |
| Base64.EncodeLength | backend/server.py:194 | the encoding has four characters per started group of three bytes |
| Base64.GroupRoundTrip | backend/server.py:194-210 | a full group of three bytes round-trips |
| Base64.ThreeByteRoundTrip | backend/server.py:194-210 | exactly three bytes round-trip with no padding |
| Base64.OneByteRoundTrip | backend/server.py:194-210 | a final single byte round-trips through "==" padding |
| Base64.TwoByteRoundTrip | backend/server.py:194-210 | two final bytes round-trip through "=" padding |
| Base64.DecodeEncode | backend/server.py:194-210 | decoding the stored data gives back exactly the uploaded bytes |
| Text.TrimStart | frontend/src/pages/ChatRoomPage.jsx:55 | a suffix with no leading whitespace, empty exactly for blank text |
| Text.TrimEnd | frontend/src/pages/ChatRoomPage.jsx:55 | a prefix with no trailing whitespace, empty exactly for blank text |
| Text.Trim | frontend/src/pages/ChatRoomPage.jsx:55 | `trim()`; `TrimEmptyIffBlank` states that it is empty exactly for blank text |
| Text.TrimEmptyIffBlank | frontend/src/pages/ChatRoomPage.jsx:55 | `trim()` is empty exactly when the text is all whitespace |
| Text.LowerChar | frontend/src/pages/ChatsPage.jsx:22 | lower-casing leaves no upper-case letter and keeps other characters |
| Text.UpperChar | frontend/src/pages/ChatsPage.jsx:90 | upper-casing leaves no lower-case letter and keeps other characters |
| Text.Lower | frontend/src/pages/ChatsPage.jsx:22 | `toLowerCase` maps each character and keeps the length |
| Text.Upper | frontend/src/pages/ChatsPage.jsx:90 | `toUpperCase` maps each character and keeps the length |
| Text.LowerCaseInsensitive | frontend/src/pages/ChatsPage.jsx:22 | lower-casing forgets any earlier case change |
| Text.Includes | frontend/src/pages/ChatsPage.jsx:22 | `includes` holds exactly when the text occurs at some position |
| Text.OccursShift | frontend/src/pages/ChatsPage.jsx:22 | an occurrence after the first character is an occurrence in the rest |
| Text.Prefix | frontend/src/pages/ChatsPage.jsx:90 | `substring(0, n)` is the first `min(n, length)` characters |
| Text.NatToDecimal | frontend/src/pages/OrdersPage.jsx:53-55 | the decimal digits, without leading zeros, denote the number |
| Chats.Filter | frontend/src/pages/ChatsPage.jsx:21-23 | a subsequence of the chats, keeping a chat exactly when its lower-cased `contact_name` contains the lower-cased query; every kept chat keeps all its occurrences (as a multiset, the kept chats are exactly the matching ones) |
| Chats.FilterIdempotent | frontend/src/pages/ChatsPage.jsx:21-23 | filtering twice is filtering once |
| Chats.FilterCaseInsensitive | frontend/src/pages/ChatsPage.jsx:21-23 | the filter does not depend on the case of the query |
| Chats.FilterEmptyQuery | frontend/src/pages/ChatsPage.jsx:22 | an empty query keeps exactly the chats with a `contact_name` |
| Chats.Initials | frontend/src/pages/ChatsPage.jsx:90 | the first two characters upper-cased, or "НА" for a missing or empty name |
| Chats.ShowsUnreadBadge | frontend/src/pages/ChatsPage.jsx:109 | `chat.unread_count > 0`; `UnreadBadge` states which count is shown |
| Chats.UnreadBadge | frontend/src/pages/ChatsPage.jsx:109-113 | the badge is shown exactly when the count is present and positive, and then shows that count; a missing or zero count shows none |
| Chats.FromDoc | frontend/src/pages/ChatsPage.jsx:80-113 | a chat document read as the page reads it: a present integer `unread_count` and a present string `contact_name` are taken as they are, a missing or mistyped count is absent |
| Orders.IndexOf | frontend/src/pages/OrdersPage.jsx:38 | the position of the item's entry, or none |
| Orders.Quantity | frontend/src/pages/OrdersPage.jsx:38 | an item's quantity is its entry's value, or 0 without an entry |
| Orders.Put | frontend/src/pages/OrdersPage.jsx:36-39 | writing a key replaces its entry in place, or appends a new entry last |
| Orders.Clamped | frontend/src/pages/OrdersPage.jsx:38 | `max(0, old + delta)` is never negative, and equals the sum unless that is negative |
| Orders.Updated | frontend/src/pages/OrdersPage.jsx:35-40 | the cart after `updateQuantity`; `UpdatedSpec` states its contents |
| Orders.TotalNonNegative | frontend/src/pages/OrdersPage.jsx:42-44 | the total is never negative, and is 0 exactly when every quantity is 0 |
| Orders.Total | frontend/src/pages/OrdersPage.jsx:42-44 | the sum of the quantities; `TotalNonNegative`, `PutTotal` and `ItemsSum` state its properties |
| Orders.UpdatedSpec | frontend/src/pages/OrdersPage.jsx:35-40 | `updateQuantity` sets the item to the clamped sum, keeps the cart well formed, and changes no other item |
| Orders.PutSpec | frontend/src/pages/OrdersPage.jsx:36-39 | a write sets its key to the new quantity, leaves every other quantity, adds or removes no other key, keeps names distinct, moves no other entry, and changes the total by the difference |
| Orders.PutPositions | frontend/src/pages/OrdersPage.jsx:36-39 | spreading `prev` and writing one key keeps every other entry at its position |
| Orders.PutWellformed | frontend/src/pages/OrdersPage.jsx:36-39 | writing a non-negative quantity keeps the cart well formed |
| Orders.PutQuantity | frontend/src/pages/OrdersPage.jsx:36-39 | after a write, the key reads the new quantity and every other key reads as before |
| Orders.PutKeys | frontend/src/pages/OrdersPage.jsx:36-39 | a write adds no key besides its own and removes none |
| Orders.PutTotal | frontend/src/pages/OrdersPage.jsx:42-44 | a write changes the total by the difference in that item's quantity |
| Orders.DecrementAtZero | frontend/src/pages/OrdersPage.jsx:38 | decrementing an item at 0 leaves it at 0 |
| Orders.Items | frontend/src/pages/OrdersPage.jsx:47-49 | every submitted item has a positive quantity |
| Orders.SumQuantitiesAppend | frontend/src/pages/OrdersPage.jsx:47-49 | the sum of quantities distributes over concatenation |
| Orders.ItemsSum | frontend/src/pages/OrdersPage.jsx:42-49 | the submitted quantities add up to the cart total |
| Orders.FirstNameUnique | frontend/src/pages/OrdersPage.jsx:47-49 | the first entry's name occurs nowhere else in the cart |
| Orders.ItemsFromCart | frontend/src/pages/OrdersPage.jsx:47-49 | each submitted item is a cart entry, with that entry's quantity |
| Orders.ItemsCoverCart | frontend/src/pages/OrdersPage.jsx:47-49 | every entry with a positive quantity is submitted |
| Orders.OrderBehindFirst | frontend/src/pages/OrdersPage.jsx:47-49 | items in the order of the cart's tail, none named like its first entry, are in the order of the whole cart |
| Orders.OrderAfterFirst | frontend/src/pages/OrdersPage.jsx:47-49 | the first entry's item goes before all of them |
| Orders.ItemsInCartOrder | frontend/src/pages/OrdersPage.jsx:47-49 | submitted items keep the cart's order |
| Orders.ItemsSpec | frontend/src/pages/OrdersPage.jsx:47-49 | the items are exactly the positive entries, in cart order, with distinct names |
| Orders.QuantityOfEntry | frontend/src/pages/OrdersPage.jsx:38 | an entry's name reads that entry's quantity |
| Orders.NoItemsNoTotal | frontend/src/pages/OrdersPage.jsx:51 | a cart with nothing to submit totals 0 |
| Orders.Payload | frontend/src/pages/OrdersPage.jsx:46-59 | no order exactly when the total is 0; otherwise the positive items, `total_items` equal to their sum, status "processing" and a four-digit number |
| Orders.FourDigits | frontend/src/pages/OrdersPage.jsx:53 | an order number from 1000 to 9999 prints as four digits |
| Orders.StatusClasses | frontend/src/pages/OrdersPage.jsx:62-82 | "processing" and "ready" get their own label and colour; every other status shows "Завершена" on gray |
| Orders.StatusText | frontend/src/pages/OrdersPage.jsx:73-82 | `getStatusText`; `StatusClasses` states the three labels |
| Orders.StatusColor | frontend/src/pages/OrdersPage.jsx:62-71 | `getStatusColor`; `StatusClasses` states the three colours |
| Orders.OrdersPage.constructor | frontend/src/pages/OrdersPage.jsx:9-10 | the cart starts empty, and the confirmation starts hidden |
| Orders.OrdersPage.TotalItems | frontend/src/pages/OrdersPage.jsx:42-44 | the sum of the cart's quantities, which is also the sum of the submitted items' quantities; never negative, and 0 exactly when every quantity is 0 |
| Orders.OrdersPage.UpdateQuantity | frontend/src/pages/OrdersPage.jsx:35-40 | the cart becomes its `updateQuantity` successor and stays well formed |
| Orders.OrdersPage.SubmitOrder | frontend/src/pages/OrdersPage.jsx:21-26 | sends the payload; after a successful create the cart is empty and the confirmation is shown, otherwise nothing changes |
| Orders.OrdersPage.HideSuccess | frontend/src/pages/OrdersPage.jsx:25 | the confirmation is hidden |
| ChatRoom.DateSource | frontend/src/pages/ChatRoomPage.jsx:95 | the `timestamp` when it is set and non-empty, else `created_date` |
| ChatRoom.FindGroup | frontend/src/pages/ChatRoomPage.jsx:96 | the position of the group with the key, or none |
| ChatRoom.FindGroupIs | frontend/src/pages/ChatRoomPage.jsx:96 | the lookup finds the first group with the key |
| ChatRoom.Push | frontend/src/pages/ChatRoomPage.jsx:99-100 | adding a message to its day group, or opening a new group; `CountPush` and `GroupedSnoc` state it |
| ChatRoom.Grouped | frontend/src/pages/ChatRoomPage.jsx:92-103 | the object `groupMessagesByDate` builds; `GroupedSpec`, `GroupedCoverage` and `GroupedFlatten` state what it holds |
| ChatRoom.SameKeysSameFind | frontend/src/pages/ChatRoomPage.jsx:96 | the lookup depends only on the keys |
| ChatRoom.With | frontend/src/pages/ChatRoomPage.jsx:99 | the messages grouped under a key are messages of the input that carry that key, no more of them than the input has |
| ChatRoom.WithCount | frontend/src/pages/ChatRoomPage.jsx:92-103 | a day group holds every occurrence of every message with its key and nothing else, counted as a multiset |
| ChatRoom.FirstWith | frontend/src/pages/ChatRoomPage.jsx:96 | the first message with the key, or none |
| ChatRoom.WithNone | frontend/src/pages/ChatRoomPage.jsx:94-101 | no message is grouped under a key exactly when no message has that key |
| ChatRoom.WithEmpty | frontend/src/pages/ChatRoomPage.jsx:96 | no message has the key exactly when it has no first occurrence |
| ChatRoom.FirstWithAppend | frontend/src/pages/ChatRoomPage.jsx:94-101 | pushing a message moves no key's first occurrence |
| ChatRoom.WithAppend | frontend/src/pages/ChatRoomPage.jsx:99 | pushing a message adds it to its own key only |
| ChatRoom.GroupKeysDistinct | frontend/src/pages/ChatRoomPage.jsx:96-98 | no two groups share a key |
| ChatRoom.GroupedSpec | frontend/src/pages/ChatRoomPage.jsx:92-103 | a key has a group exactly when some message has it, and that group holds exactly those messages in input order |
| ChatRoom.PushExisting | frontend/src/pages/ChatRoomPage.jsx:99 | pushing onto an existing group keeps the grouping invariant |
| ChatRoom.PushNew | frontend/src/pages/ChatRoomPage.jsx:96-99 | creating a group and pushing keeps the grouping invariant |
| ChatRoom.GroupsNonEmpty | frontend/src/pages/ChatRoomPage.jsx:96-99 | no group is empty |
| ChatRoom.GroupedCoverage | frontend/src/pages/ChatRoomPage.jsx:92-103 | a key has a group exactly when some message has it |
| ChatRoom.CountPush | frontend/src/pages/ChatRoomPage.jsx:99 | each push adds exactly one message |
| ChatRoom.GroupedCount | frontend/src/pages/ChatRoomPage.jsx:92-103 | the groups hold as many messages as the input |
| ChatRoom.GroupKeyOccurs | frontend/src/pages/ChatRoomPage.jsx:96-98 | every group's key occurs in the input |
| ChatRoom.GroupedKeyOrder | frontend/src/pages/ChatRoomPage.jsx:165 | groups appear in the order of their keys' first occurrences |
| ChatRoom.GroupedFlatten | frontend/src/pages/ChatRoomPage.jsx:165 | when equal keys are adjacent, the groups one after the other give back the input |
| ChatRoom.GroupedSnoc | frontend/src/pages/ChatRoomPage.jsx:94-101 | grouping one more message is one more push onto the groups |
| ChatRoom.KeyOrderPush | frontend/src/pages/ChatRoomPage.jsx:94-101 | one push keeps the groups in the order of their keys' first occurrences |
| ChatRoom.FlattenPushOntoLast | frontend/src/pages/ChatRoomPage.jsx:94-101 | a message with the last group's key joins that group at the end, so the groups still reassemble the messages |
| ChatRoom.FlattenPushNew | frontend/src/pages/ChatRoomPage.jsx:94-101 | a message whose key has not occurred opens a new last group, so the groups still reassemble the messages |
| ChatRoom.NewKeyAfterRun | frontend/src/pages/ChatRoomPage.jsx:96 | in such an input, a key that differs from the previous one has not occurred before |
| ChatRoom.GroupMessagesByDate | frontend/src/pages/ChatRoomPage.jsx:92-103 | the `forEach` loop builds exactly the grouping by day key |
| ChatRoom.CanSendSpec | frontend/src/pages/ChatRoomPage.jsx:55 | a send goes ahead exactly when the text is not all whitespace and a `chatId` is present |
| ChatRoom.CanSend | frontend/src/pages/ChatRoomPage.jsx:55 | the guard of `handleSend`; `CanSendSpec` states it |
| ChatRoom.SenderName | frontend/src/pages/ChatRoomPage.jsx:62 | the user's `full_name`, or "Вы"; never empty |
| ChatRoom.Send | frontend/src/pages/ChatRoomPage.jsx:54-74 | nothing is sent when the guard fails; otherwise an outgoing message with the untrimmed text and the chat, plus a chat update with the same text and `unread_count` 0 |
| ChatRoom.SendUpdateFields | frontend/src/pages/ChatRoomPage.jsx:66-73 | the chat update sets `last_message` to the text, `time` to the time label and `unread_count` to 0, and leaves `contact_name` and `is_online` unset |
| ChatRoom.SentChatShowsNoBadge | frontend/src/pages/ChatRoomPage.jsx:66-73 | once a chat has taken the update a send writes, the chat list shows no unread badge for it |
| ChatRoom.ButtonMatchesGuard | frontend/src/pages/ChatRoomPage.jsx:229 | for every sender, clock reading and time label, an enabled send button means the guard lets the text through |
| ChatRoom.SendDisabled | frontend/src/pages/ChatRoomPage.jsx:229 | the disabled condition of the send button; `ButtonMatchesGuard` relates it to the guard |
| ChatRoom.SendsOnKey | frontend/src/pages/ChatRoomPage.jsx:76-77 | Enter without Shift; `ChatRoomPage.HandleKeyPress` states its effect |
| ChatRoom.ContactName | frontend/src/pages/ChatRoomPage.jsx:21 | the `contactName` parameter when it is present and non-empty, "Контакт" when it is missing or empty; never empty |
| ChatRoom.HeaderInitials | frontend/src/pages/ChatRoomPage.jsx:125 | the chat-list initials of the contact name, "КО" without a parameter |
| ChatRoom.ChatRoomPage.constructor | frontend/src/pages/ChatRoomPage.jsx:14-21 | the page starts with the URL's parameters and an empty input |
| ChatRoom.ChatRoomPage.Edit | frontend/src/pages/ChatRoomPage.jsx:14 | typing replaces the input |
| ChatRoom.ChatRoomPage.HandleSend | frontend/src/pages/ChatRoomPage.jsx:37-40 | sends what `Send` gives; the input is cleared only after a successful send |
| ChatRoom.ChatRoomPage.HandleKeyPress | frontend/src/pages/ChatRoomPage.jsx:76-81 | Enter without Shift sends, any other key sends nothing |
| Routes.IndexFrom | frontend/src/utils/index.jsx:2-12 | the table position of the page name, or none |
| Routes.PageUrl | frontend/src/utils/index.jsx:13 | a path is never empty |
| Routes.TableDistinct | frontend/src/utils/index.jsx:2-12 | the nine page names and their paths are pairwise distinct, and no path is empty or "/" |
| Routes.PageUrlKnown | frontend/src/utils/index.jsx:2-12 | each known page name maps to its listed path |
| Routes.PageUrlRootIffUnknown | frontend/src/utils/index.jsx:13 | a page name maps to "/" exactly when it is not in the table |
| Routes.PageUrlInjective | frontend/src/utils/index.jsx:3-11 | distinct known page names map to distinct paths |
| Routes.CallScreenIsRoot | frontend/src/pages/ChatRoomPage.jsx:84 | "CallScreen" is not in the table and maps to "/" |
| Layout.TabLinksAre | frontend/src/components/Layout.jsx:9-15 | the tabs link to "/chats", "/tasks", "/orders", "/profile" and "/sos", in that order |
| Layout.TabLinks | frontend/src/components/Layout.jsx:45-47 | the `to` of each tab in bar order; `TabLinksAre` states the five paths |
| Layout.IsActive | frontend/src/components/Layout.jsx:17-19 | `isActive`; `ActiveIffAtLink` and `AtMostOneActive` state when a tab is active |
| Layout.ActiveIffAtLink | frontend/src/components/Layout.jsx:17-19 | a tab is active exactly when the path is its link |
| Layout.AtMostOneActive | frontend/src/components/Layout.jsx:9-19 | at most one tab is active for any path |
| Layout.TabLinksInjective | frontend/src/components/Layout.jsx:9-15 | no two tabs link to the same path |
| Layout.NotTabLink | frontend/src/components/Layout.jsx:9-15 | a path of another length than the five links, or of their length with another second character, is no tab's link |
| Layout.SomeActiveIffTabPath | frontend/src/components/Layout.jsx:41-47 | some tab is active exactly when the path is one of the tab links |
| Layout.NoTabOnSubPages | frontend/src/components/Layout.jsx:17-19 | on "/chat", "/profile/edit", "/profile/security" and "/profile/settings" no tab is active |
| App.PrivateRoute | frontend/src/App.jsx:31-50 | the spinner while loading; otherwise a redirect to "/login" without a user, else the page |
| App.PublicRoute | frontend/src/App.jsx:52-71 | the spinner while loading; otherwise a redirect to "/chats" with a user, else the page |
| App.GuardsExclusive | frontend/src/App.jsx:45-49 | once loading is over, exactly one of the two guards renders its page |
| App.MatchFrom | frontend/src/App.jsx:79-92 | the first declared route with the path at or after a position, or none |
| App.Match | frontend/src/App.jsx:79-92 | the declared route with the path, or none exactly when no route has it |
| App.Render | frontend/src/App.jsx:78-93 | an undeclared path renders nothing |
| App.DeclaredDistinct | frontend/src/App.jsx:79-92 | no path is declared twice |
| App.RouteKinds | frontend/src/App.jsx:79-92 | "/" alone redirects, to "/chats"; "/login" and "/register" alone are public |
| App.MatchDeclared | frontend/src/App.jsx:79-92 | each declared path selects its own route |
| App.RootRedirects | frontend/src/App.jsx:82 | "/" redirects to "/chats" whatever the session |
| App.SpinnerWhileLoading | frontend/src/App.jsx:34-43 | every guarded route shows the spinner while loading |
| App.SignedOutGoesToLogin | frontend/src/App.jsx:45-47 | signed out, every private path redirects to "/login", which renders its page |
| App.SignedInGoesToChats | frontend/src/App.jsx:66-68 | signed in, the public paths redirect to "/chats", which renders its page with the layout |
| App.RenderDeclared | frontend/src/App.jsx:31-92 | a declared path shows what its own route's element gives for the auth state |
| App.RedirectsSettle | frontend/src/App.jsx:31-92 | once loading is over, any redirect from a declared path leads to a page after at most two more steps |
| App.SignedOutLogin | frontend/src/App.jsx:79 | signed out, "/login" renders the login page |
| App.PageUrlRouted | frontend/src/App.jsx:82-92 | every path `createPageUrl` returns has a declared route |
| App.TablePathRouted | frontend/src/App.jsx:84-92 | every path of the page table has a declared route |
| App.LayoutOnTabPages | frontend/src/App.jsx:84-92 | a guarded route has the layout exactly when its path is a tab link |
| ApiClient.TokenAfterOnlyClears | frontend/src/api/apiClient.jsx:19-28 | a response can only clear the token, and clears it exactly on a 401 |
| ApiClient.TokenAfterAuthSpec | frontend/src/api/apiClient.jsx:33-46 | register and login store `access_token` only when the reply has a non-empty one, and a 401 clears it |
| ApiClient.TokenAfter | frontend/src/api/apiClient.jsx:20-26 | the stored token after a reply; `TokenAfterOnlyClears` states that a 401 clears it and nothing else changes it |
| ApiClient.TokenAfterAuth | frontend/src/api/apiClient.jsx:33-45 | the stored token after `register` or `login`; `TokenAfterAuthSpec` states when it is replaced |
| ApiClient.BearerToken | frontend/src/api/apiClient.jsx:13 | recovers the token from an `Authorization` header (RFC 6750 section 2.1) |
| ApiClient.BearerRoundTrip | frontend/src/api/apiClient.jsx:13 | the header's token is the stored token |
| ApiClient.Client.constructor | frontend/src/api/apiClient.jsx:3-7 | the client starts with the stored token and the back end's URL |
| ApiClient.Client.HasToken | frontend/src/api/apiClient.jsx:11-12 | the truthy-token test; `Client.Authorization` states that a header is attached exactly when it holds |
| ApiClient.Client.Authorization | frontend/src/api/apiClient.jsx:10-16 | a header exactly when a token is stored, carrying that token |
| ApiClient.Client.Settle | frontend/src/api/apiClient.jsx:19-28 | the outcome is passed on; a 401 clears the token and goes to "/login", and nothing else changes |
| ApiClient.Client.Request | frontend/src/api/apiClient.jsx:51-54 | a plain call returns its outcome and touches the token only through the 401 handler |
| ApiClient.Client.Authenticate | frontend/src/api/apiClient.jsx:33-46 | register and login store the returned token, or on a 401 clear it |
| ApiClient.Client.Logout | frontend/src/api/apiClient.jsx:47-50 | the token is removed, and the page goes to "/login" |
| ApiClient.Client.UploadFile | frontend/src/api/apiClient.jsx:145-152 | the server's `file_url` with the API URL in front |
| AuthContext.UseAuth | frontend/src/contexts/AuthContext.jsx:6-12 | outside a provider, the error "useAuth must be used within AuthProvider"; inside, the context value |
| AuthContext.AuthProvider.constructor | frontend/src/contexts/AuthContext.jsx:15-16 | no user, and loading |
| AuthContext.AuthProvider.Value | frontend/src/contexts/AuthContext.jsx:50 | the provided value is the current user and loading flag, and passes `useAuth` unchanged |
| AuthContext.AuthProvider.Mount | frontend/src/contexts/AuthContext.jsx:18-28 | without a token, no fetch; with one, the profile becomes the user, or the token is removed on failure; loading ends either way |
| AuthContext.AuthProvider.SignIn | frontend/src/contexts/AuthContext.jsx:30-42 | the user is set only when both the auth call and the profile call succeed; a failure is returned and leaves the user unchanged; the page goes to "/login" exactly when the auth call, or the profile call after a successful one, answers 401 |
| AuthContext.AuthProvider.Logout | frontend/src/contexts/AuthContext.jsx:44-47 | no user, no token and "/login"; every private route then redirects to "/login" |

## Left out

- I/O is left out: HTTP transport, MongoDB and motor, async scheduling, CORS, react-query caching, invalidation and `retry`, `FormData`, and rendering (JSX, animations, scrolling, `FileReader` previews). Every HTTP result is a `Success`/`Failure` parameter, and every Mongo call is an operation on a sequence.
- Collections are sequences rather than maps from id to document, because `find_one` takes the first match. The invariant `UniqueIds` makes each id name at most one document.
- Documents.Select: MongoDB does not specify the order of documents with equal `created_date`, nor which of them `to_list` keeps at the limit; the model fixes one such order, insertion order by a stable sort, so `Select`, `ListOwned` and `ListMessages` return one of the orders the server may return.
- `uuid4`, `datetime.utcnow()`, bcrypt hashing and checking, and JWT encoding, decoding and expiry are parameters: a fresh id, a clock string, a hash value, a `verify` predicate and the decoded claims.
- `generate_user_code` is random and stores nothing the core reads, so it is not modelled.
- The order number from `Math.random` is floating point; it is taken as a parameter from 1000 to 9999.
- `toLocaleDateString`, `toLocaleTimeString`, `new Date` parsing and ISO time are parameters of `DayKey`, `Send` and `HandleSend`.
- Unicode case mapping is restricted to ASCII and the Cyrillic block U+0400-U+045F, which covers the app's own strings; other scripts are left unchanged.
- `encodeURIComponent` and `URLSearchParams` are not modelled; the page receives the decoded query parameters.
- Python's `str()` of non-string `_id` values prints only strings and integers; other values are never ids here.
- The two requests of `handleSend` are fire-and-forget; only their payloads are modelled, not their order or a partial failure.
- The `timestamp` the front end sends with a message is modelled in its payload, while `MessageCreate` on the server has no such field and drops it.
- `searchByCode` and `createWithUser` call `/api/users/search` and a `with-user` chat endpoint that `backend/server.py` does not define.
- `ProfilePage.jsx`, `EditProfilePage.jsx`, `SecuritySettingsPage.jsx` and `vite.config.js` are not part of this model: they hold UI toggles, upload-then-patch orchestration and build configuration. `getInitials` there is the rule of `Chats.Initials`, and so is the sender avatar of `ChatRoomPage.jsx:185`, which the model does not render separately.
- Routes.PageUrl: a page name that is an `Object.prototype` member such as "toString" would return that member in JavaScript; the model maps every unlisted name to "/".
- App.Match: react-router matches paths case-insensitively and ignores a trailing slash; the model matches the exact path.
- Text.Prefix: strings are sequences of Unicode code points, while JavaScript's `substring` counts UTF-16 code units; for a name that starts with a character outside the Basic Multilingual Plane (an emoji, say) the browser cuts it in half and the model does not.
- Chats.Initials: the two initials are two code points, not two UTF-16 code units, for the reason given under `Text.Prefix`.
- ChatRoom.HeaderInitials: the header initials follow `Chats.Initials`, with the same code-point reading of `substring`.
- Server.CurrentUser: the model assumes that the imported `jwt` module defines `ExpiredSignatureError` and `JWTError`, as python-jose's `jwt` does. No dependency list fixes the library. Under PyJWT, which has no `JWTError`, reaching the `except` clause at line 131 would raise `AttributeError` and answer 500, also for the two 401s raised at lines 123 and 126; that case is not modelled.
- Server.GetFile: `base64.b64decode` without `validate=True` skips characters outside the base64 alphabet, while `Base64.Decode` rejects them and the model answers 500. Only data that `Upload` wrote is served, and that data is always canonical `Encode` output, so the two agree on every file the server itself stores.
- The chat-room header renders `Phone`, `Video` and `MoreVertical` (`ChatRoomPage.jsx:139-145`), which line 6 does not import, so the page as written throws a `ReferenceError` when it renders and its send controls are unreachable from the UI. Rendering is not modelled; the model describes the handlers as if the icons were imported.
- ApiClient.Client.Authenticate: a non-string `access_token` is not modelled; the reply carries a string or nothing.
- AuthContext.AuthProvider.SignIn: the profile outcome is a parameter, not derived from the token the login stored.
- `register` and `login` in the client are the same code on two URLs, so one method `Authenticate` models both, and `login` and `register` in the context are modelled by one `SignIn`.
- ChatRoom.GroupedFlatten: the groups reassemble the input only when messages with the same day label are adjacent. The messages arrive sorted by `created_date`, but the model does not prove that the locale day label is monotone in that order, so adjacency is a precondition.

Three behaviours of the code a reader might not expect:

- An `Authorization` header is attached only when the stored token is truthy, so an empty string sends none (`ApiClient.Client.Authorization`).
- Sending a message, the front end does not trim the text it sends; it trims only to test for blank input (`ChatRoom.Send`).
- The order form is shown only with a positive total, and `handleSubmitOrder` itself returns early on an empty item list (`Orders.Payload`).

## Findings

| source | as written | input that shows it | evidently intended | confidence | as-written member | corrected member |
|---|---|---|---|---|---|---|
| backend/server.py:170-172 | `get_me` returns the whole stored user document, including the bcrypt `password` hash | register any user, then `GET /api/auth/me` with its token | the profile without the `password` field | not executed | Server.MeRevealsPasswordHash | Server.PublicMe |
