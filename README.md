# A verified model of the DigitalDemi Distributed-Systems marketplace

The repository is a small commodity marketplace in three independent
versions: a Python one (JSON messages over length-prefixed TCP frames)
and two Java ones (Java-serialized `Message` objects over object
streams). In every version sellers register, receive a stock of four
commodities (flower, sugar, potato, oil) and put one lot at a time on
sale for a limited time. Buyers list the lots and buy amounts from
them. The market manager checks each purchase against what is left.

This project models the core of all three versions in Dafny and proves
the properties the code promises:

- **Market managers.** The Python manager and the two Java managers are
  classes over maps of items and sellers' stocks. Each has an abstract
  state and pure transition functions. Every method is proved to follow
  its transition. Conservation, "never below zero" and the
  one-sale-per-seller rule are proved about the transitions.
- **Items.** The three item classes share one purchase rule
  (`PurchaseRule`). Their expiry and remaining-time arithmetic is proved.
- **Python wire format.** Message types and their wire strings, a JSON
  text encoder and parser, and UTF-8. The encoder and the framing are
  proved to round-trip.
- **Java wire format.** Messages are values: a type, a map of named
  values and a sender. Java's casts, unboxing and null are modelled
  explicitly.
- **Clients and simulation.** The Python clients (base, buyer, seller,
  simulated buyer and seller), the event queue, the Java server's client
  handler, the two Java seller clients and the Java seller behaviour.
  Sockets are modelled as per-client outboxes and inboxes (sequences of
  messages or bytes).

Conventions:

- Each public operation of a manager runs under one lock, so each is
  modelled as one atomic step.
- Wall-clock time is an explicit `now` (or `nowMillis`) parameter.
- Ids derived from the clock are built from a `clock` string parameter.
- Quantities are `real`: floating-point rounding is not modelled.

Where the code and the repository's own description disagree, the model
follows the code:

- The Java managers accept a sale of quantity zero or less.
- The Python `start_sale` never takes the quantity out of stock.
- The v2 server has no SALE_END case.
- The v2 seller client gives its sale record the server port as its
  duration.


## Model

| member | source | states |
|---|---|---|
| ItemTypes.FromValue | src/core/Market/item_type.py:4-8 | The enum lookup by value finds a commodity exactly when the text is one of the four wire names, and the commodity found carries that name. |
| ItemTypes.Lower | src/core/Market/item_type.py:14 | Lower-casing keeps the length and lower-cases each character (ASCII only). |
| ItemTypes.FromString | src/core/Market/item_type.py:10-18 | Parsing succeeds exactly when the lower-cased text is a wire name, and yields the commodity with that name; otherwise it raises ValueError quoting the text and listing the valid names. |
| ItemTypes.AllTypesComplete | src/core/Market/item_type.py:4-8 | The list of commodities holds every commodity exactly once. |
| ItemTypes.ValueInjective | src/core/Market/item_type.py:4-8 | Two commodities with the same wire name are the same commodity. |
| ItemTypes.ValuesRoundTrip | src/core/Market/item_type.py:4-18 | Wire names are distinct and each parses back to its own commodity. |
| ItemTypes.ValidTypesListed | src/core/Market/item_type.py:17 | The error message lists the names in declaration order: "flower, sugar, potato, oil". |
| ItemTypes.ValueIsLower | src/core/Market/item_type.py:5-8 | Every wire name is already lower case. |
| ItemTypes.FromStringValue | src/core/Market/item_type.py:10-14 | Parsing a commodity's wire name gives that commodity. |
| ItemTypes.FromStringCaseInsensitive | src/core/Market/item_type.py:12-14 | Two spellings that lower-case alike are both accepted with the same commodity, or both refused. |
| ItemTypes.UpperCaseAccepted | src/core/Market/item_type.py:12-14 | "FLOWER" and "Sugar" are accepted. |
| ItemStocks.NewItemStock | src/core/Market/item_stock.py:10-16 | A stock record is made exactly when 0 <= quantity <= maximum; otherwise the first failing check, in source order, names the error. |
| ItemStocks.FullStockAccepted | src/core/Market/item_stock.py:10-16 | A record whose quantity equals its non-negative maximum, as an opening stock is, is accepted. |
| MessageTypes.FromWire | src/core/Server/message_type.py:4-14 | The enum lookup returns a member whose wire string is the text, or raises ValueError naming the text. |
| MessageTypes.AllMessageTypesComplete | src/core/Server/message_type.py:4-14 | The ten members are all listed, each once. |
| MessageTypes.FromWireRoundTrip | src/core/Server/message_type.py:4-14 | Looking up a member's wire string gives that member. |
| MessageTypes.WireInjective | src/core/Server/message_type.py:4-14 | The ten wire strings are pairwise distinct. |
| MessageTypes.FromWireAcceptsExactlyWires | src/core/Server/message_type.py:4-14 | A text is accepted exactly when it is one of the ten wire strings. |
| PurchaseRule.Attempt | src/core/Market/market_item.py:36-44 | A purchase is refused as invalid exactly when the amount is not positive, and accepted exactly when 0 < amount <= quantity; an accepted purchase leaves quantity - amount, which is below the old quantity and not negative. |
| PurchaseRule.After | app/src/main/java/main/market/Item.java:23-32 | A purchase attempt never raises the quantity and never takes a non-negative quantity below zero. |
| PurchaseRule.RunConserves | app/src/main/java/main/market/Item.java:23-32 | Over any run of attempts on a non-negative quantity, the quantity stays non-negative, no more is sold than was offered, and what is left is what was offered less what was sold. |
| PyMarketItem.RemainingAt | src/core/Market/market_item.py:50-52 | The remaining time is `max(0, duration - elapsed)`: duration minus elapsed while that is positive, and zero exactly when the elapsed time has reached the duration; it never exceeds the duration once the sale has begun. |
| PyMarketItem.ExpiryAgreesWithRemaining | src/core/Market/market_item.py:46-52 | An expired item has no time left and an item with time left is not expired; at the exact end of the sale the time left is already 0 while the item is not yet expired. |
| PyMarketItem.MarketItem.constructor | src/core/Market/market_item.py:7-22 | The new item holds the given id, type, quantity, seller and duration, and its sale starts now. |
| PyMarketItem.MarketItem.ToDict | src/core/Market/market_item.py:24-34 | The dictionary carries the item's own id, seller, quantity, start time and duration; its name is the commodity's value, which parses back to the commodity; its remaining time is the item's remaining time at that moment. |
| PyMarketItem.MarketItem.TryPurchase | src/core/Market/market_item.py:36-44 | A non-positive amount raises ValueError; otherwise the purchase succeeds exactly when the amount is at most the quantity, and the new quantity follows the shared purchase rule. |
| PyMarketManager.FullStock | src/core/Market/market_manager.py:22-28 | The opening stock holds every commodity, each at the given quantity with that quantity as its maximum. |
| PyMarketManager.FirstStocked | src/core/Market/market_manager.py:151-161 | The commodity chosen is in the order, recorded and in stock; none is chosen only when every commodity of the order is recorded and out of stock; a commodity with no record raises KeyError. |
| PyMarketManager.FirstStockedIsFirst | src/core/Market/market_manager.py:152-156 | The choice is the earliest commodity of the order that has stock. |
| PyMarketManager.RotationOrderCoversOthers | src/core/Market/market_manager.py:203-221 | The rotation examines every commodity other than the current one, each exactly once (three of them, or all four when nothing is on sale). |
| PyMarketManager.RotationMovesOn | src/core/Market/market_manager.py:203-221 | Rotation never picks the commodity currently on sale, and picks something whenever another commodity of a complete stock has stock left. |
| PyMarketManager.SelectRotationType | src/core/Market/market_manager.py:202-223 | The two selection loops pick the commodity the rotation order defines: the first in stock after the current one, else the first in stock before it. |
| PyMarketManager.WrapAroundPass | src/core/Market/market_manager.py:215-221 | The wrap-around loop picks the first commodity in stock among those declared before the current one. |
| PyMarketManager.Restock | src/core/Market/market_manager.py:97-99 | A positive remainder is added to exactly one seller's record of one commodity, keeping its maximum and every other record; a missing seller or commodity raises KeyError; a non-positive remainder changes nothing. |
| PyMarketManager.RestockOverfills | src/core/Market/market_manager.py:50-85 | Because starting a sale takes nothing out of stock, returning a remainder to a full record leaves it above its maximum, a state the stock record's own checks refuse. |
| PyMarketManager.StockLevels | src/core/Market/market_manager.py:169-172 | The levels map each commodity's wire name to its quantity, and every key names a recorded commodity. |
| PyMarketManager.AutoRotateDeadlocksOnRemainder | src/core/Market/market_manager.py:87-112 | Returning a positive remainder always leaves the seller a commodity in stock, so ending a sale with rotation as written blocks whenever something was left unsold. |
| PyMarketManager.CurrentTypeAsWritten | src/core/Market/market_manager.py:197-199 | The current commodity is found exactly when the seller id is a key of the item map. |
| PyMarketManager.CurrentTypeOfSeller | src/core/Market/market_manager.py:187-199 | The evidently intended current commodity: found exactly when the seller has an item on sale, and it is that item's commodity. |
| PyMarketManager.RotationIgnoresCurrentSale | src/core/Market/market_manager.py:197-212 | With item ids of the form `item_<seller>_<time>`, the lookup as written never finds the current sale, so rotation picks the commodity already on sale, where the intended lookup would pick nothing. |
| PyMarketManager.MarketManager.constructor | src/core/Market/market_manager.py:11-17 | A new manager has no items, stocks, timers or history. |
| PyMarketManager.MarketManager.InitializeSellerStock | src/core/Market/market_manager.py:19-28 | The seller's stock is replaced by a full stock of every commodity; a negative quantity raises on the first commodity and leaves the seller an empty stock; nothing else changes. |
| PyMarketManager.MarketManager.StartSaleAsWritten | src/core/Market/market_manager.py:50-85 | An unknown seller and a seller with a sale raise RuntimeError; otherwise the call raises NameError at the timer, so nothing is ever put on sale. |
| PyMarketManager.MarketManager.StartSale | src/core/Market/market_manager.py:50-85 | A sale starts exactly when the seller is registered and has no sale on; the new item has the requested commodity and quantity, the default duration and a timer, and is the only change; otherwise the first failing check raises and nothing changes. |
| PyMarketManager.MarketManager.EndSale | src/core/Market/market_manager.py:87-112 | Ending an unknown id changes nothing; otherwise the remainder returns to stock, the item and its timer go and the seller has no sale left; a missing stock record raises before anything changes. |
| PyMarketManager.MarketManager.EndSaleAutoRotate | src/core/Market/market_manager.py:87-112 | Ending with rotation, as evidently intended: the sale ends as above, then the seller's first commodity with stock is put on sale with its whole stock quantity, or none when nothing is left. |
| PyMarketManager.MarketManager.EndSaleAutoRotateAsWritten | src/core/Market/market_manager.py:87-112 | As written, the call blocks exactly when the seller still has a commodity in stock after the remainder is returned. |
| PyMarketManager.MarketManager.TryPurchase | src/core/Market/market_manager.py:114-129 | An unknown item raises "Item not found"; a non-positive amount raises; otherwise the purchase succeeds exactly when enough is left, and the item's quantity follows the shared purchase rule. |
| PyMarketManager.MarketManager.GetActiveItems | src/core/Market/market_manager.py:131-134 | The result is exactly the items in the map, expired ones included. |
| PyMarketManager.MarketManager.GetSellerStock | src/core/Market/market_manager.py:163-172 | An unknown seller raises RuntimeError; otherwise the result is the seller's stock levels by wire name. |
| PyMarketManager.MarketManager.HandleUnsoldItems | src/core/Market/market_manager.py:174-185 | A positive remainder returns to stock and the item is appended to the seller's history; the item stays on sale; a missing record raises before anything changes. |
| PyMarketManager.MarketManager.RotateSellerItems | src/core/Market/market_manager.py:187-223 | An unknown seller gets nothing; otherwise the next commodity is chosen from the as-written current commodity, and choosing one blocks because start_sale retakes the held lock. |
| MessageEncoder.ToJson | src/core/Server/message_encoder.py:11-15 | The dict written for a message is an object of exactly three members. |
| MessageEncoder.ToJsonKeys | src/core/Server/message_encoder.py:11-15 | The dict maps "type" to the type's wire string, "data" to the data and "sender_id" to the sender. |
| MessageEncoder.FromJsonToJson | src/core/Server/message_encoder.py:23-27 | Building a message back from the dict written for it gives the message. |
| MessageEncoder.TypeOf | src/core/Server/message_encoder.py:24 | The "type" value is accepted exactly when it is a string that is some type's wire string, and it is that wire string. |
| MessageEncoder.Deserialize | src/core/Server/message_encoder.py:19-29 | Every failure on the way (bad UTF-8, bad JSON, a non-object, a missing key, an unknown type) comes out as one ValueError with the "Failed to deserialize message: " prefix. |
| MessageEncoder.DeserializeAccepts | src/core/Server/message_encoder.py:19-29 | Deserializing accepts exactly the bytes that carry a message, and returns the message they carry. |
| MessageEncoder.DeserializeSerialize | src/core/Server/message_encoder.py:9-29 | Deserializing what serialize wrote gives back the message, for every message. |
| MessageEncoder.SerializeShape | src/core/Server/message_encoder.py:9-16 | The bytes written are valid UTF-8 whose text parses to the object with keys "type", "data", "sender_id" in that order. |
| JsonText.ValueRoundTrip | src/core/Server/message_encoder.py:16 | Any value's JSON text reads back as that value, whatever delimiter follows it. |
| JsonText.ParseDump | src/core/Server/message_encoder.py:16-22 | Parsing the text written for a value gives the value back. |
| JsonText.NumberRoundTrip | src/core/Server/message_encoder.py:16-22 | A number's text reads back as the same number. |
| JsonText.EscapeRoundTrip | src/core/Server/message_encoder.py:16-22 | A string's escaped text reads back as the same string. |
| Utf8.EncodeChar | src/core/Server/message_encoder.py:16 | A character is encoded as one lead byte followed by up to three continuation bytes. |
| Utf8.Decode | src/core/Server/message_encoder.py:22 | Decoding refuses input that starts with a continuation byte and never yields more characters than bytes. |
| Utf8.CharRoundTrip | src/core/Server/message_encoder.py:16-22 | Decoding reads back exactly the bytes of one encoded character. |
| Utf8.RoundTrip | src/core/Server/message_encoder.py:16-22 | Decoding an encoded string gives the string back. |
| Utf8.AsciiEncoding | src/core/Server/message_encoder.py:16 | An ASCII string is encoded byte for byte. |
| PyClient.BigEndian | src/core/Client/client.py:64 | The big-endian value of k bytes is below 256^k. |
| PyClient.Header | src/core/Client/client.py:47-48 | The length header is exactly four bytes. |
| PyClient.Receive | src/core/Client/client.py:54-76 | Receiving from a non-empty stream always consumes bytes; from an empty stream it raises. |
| PyClient.Client.constructor | src/core/Client/client.py:10-17 | A new client has no socket, no id and is not running. |
| PyClient.Client.Connect | src/core/Client/client.py:19-32 | After connecting the client has a fresh open socket, is running and reads the peer's bytes, its id and sent bytes untouched; it raises AttributeError exactly when the client defines no `handle_messages`. |
| PyClient.Client.Disconnect | src/core/Client/client.py:34-38 | Disconnecting stops the client and closes its socket if it has one; the closed socket object is kept, and nothing else changes. |
| PyClient.Client.Write | src/core/Client/client.py:48-49 | One send appends its bytes to what has been sent. |
| PyClient.Client.Read | src/core/Client/client.py:60-71 | One receive returns at most the requested number of the next unread bytes and consumes exactly those. |
| PyClient.Client.SendMessage | src/core/Client/client.py:40-52 | Without a socket it raises RuntimeError; a payload too long for a four-byte header raises OverflowError; on a closed socket it raises OSError (EBADF); a failure sends nothing; success happens exactly otherwise and sends the header followed by the payload. |
| PyClient.ReceiveMessage | src/core/Client/client.py:54-76 | Without a socket it raises RuntimeError and reads nothing; on a closed socket it raises OSError (EBADF) and reads nothing; otherwise its result and the bytes left unread are those of receiving from the unread stream. |
| PyClient.BigEndianFour | src/core/Client/client.py:64 | A four-byte header's value is built byte by byte, most significant first. |
| PyClient.HeaderRoundTrip | src/core/Client/client.py:47-64 | The receiver reads a header as the length the sender wrote into it. |
| PyClient.HeaderOfBigEndian | src/core/Client/client.py:64 | Every four bytes are the header of their own value, which fits the header. |
| PyClient.ReceiveFrame | src/core/Client/client.py:60-73 | A framed payload followed by anything is read as the payload's message, and exactly the bytes after the frame stay unread. |
| PyClient.SendThenReceive | src/core/Client/client.py:40-76 | A message one client sends is received by the other as the same message. |
| PyClient.TruncatedFrame | src/core/Client/client.py:67-70 | A stream that ends inside a payload raises "Connection closed during receive" and is read to its end. |
| EventQueues.Insert | src/core/Queue/event_queue.py:8-11 | Enqueueing yields a list one event longer. |
| EventQueues.EventQueue.constructor | src/core/Queue/event_queue.py:5-6 | A new queue is empty and in order. |
| EventQueues.EventQueue.Enqueue | src/core/Queue/event_queue.py:8-11 | The queue stays ordered by time and holds the old events plus the new one. |
| EventQueues.EventQueue.Dequeue | src/core/Queue/event_queue.py:13-17 | An empty queue gives None; otherwise the first event, which has the least time, is removed and returned. |
| EventQueues.EventQueue.Peek | src/core/Queue/event_queue.py:19-23 | Peeking gives None exactly on an empty queue, and otherwise the event dequeue would return. |
| EventQueues.EventQueue.Clear | src/core/Queue/event_queue.py:29-31 | After clearing, the queue is empty. |
| EventQueues.Drain | tests/test_queue.py:32-38 | Peeking and dequeuing until empty yields the queued events in queue order, which is non-decreasing in time. |
| EventQueues.InsertSorted | src/core/Queue/event_queue.py:10-11 | Inserting into an ordered queue keeps it ordered. |
| EventQueues.InsertHolds | src/core/Queue/event_queue.py:10-11 | Every event after an insertion is the new one or an old one. |
| EventQueues.InsertPermutes | src/core/Queue/event_queue.py:10-11 | Insertion adds exactly the new event. |
| EventQueues.InsertStable | src/core/Queue/event_queue.py:10-11 | The sort is stable: among events of one time the old ones keep their order and the new one comes last. |
| PyBuyerClient.MakeItem | src/core/Server/market_item.py:3-10 | An item is built exactly from a dict whose every key is a field and which holds the five fields without a default, otherwise TypeError; it carries those five values and `max_sale_duration` or its default 60.0. |
| PyBuyerClient.MakeItems | src/core/Client/buyer_client.py:50-53 | The list comprehension succeeds exactly when every dict builds an item, and then yields one item per dict, in order. |
| PyBuyerClient.FirstFailure | src/core/Client/buyer_client.py:50-53 | The comprehension's outcome over the items it builds: every value in order when nothing fails, otherwise the error of the first failure. |
| PyBuyerClient.WithoutId | src/core/Client/buyer_client.py:70-73 | The filtered list keeps exactly the items whose id differs from the updated one under Python's `!=` (numbers and bools by value, dicts whatever their key order). |
| PyBuyerClient.NumericIdsMatch | src/core/Client/buyer_client.py:70-73 | An update with id 5.0 drops the item listed with id 5, as Python's `5 != 5.0` is false. |
| PyBuyerClient.OnMessage | src/core/Client/buyer_client.py:44-60 | Messages other than ACK, LIST_ITEMS, STOCK_UPDATE and ERROR change nothing; a handler that raises outside STOCK_UPDATE leaves the state as it was. |
| PyBuyerClient.Step | src/core/Client/buyer_client.py:41-64 | A pass of the loop that lets the loop go on has consumed input. |
| PyBuyerClient.BuyerClient.constructor | src/core/Client/buyer_client.py:8-10 | A new buyer is unconnected, not running, and knows no items. |
| PyBuyerClient.BuyerClient.Register | src/core/Client/buyer_client.py:12-19 | On success the REGISTER message for a buyer from "unregistered" has been sent; a failure sends nothing. |
| PyBuyerClient.BuyerClient.ListItems | src/core/Client/buyer_client.py:21-28 | On success a LIST_ITEMS message with empty data from the client's id has been sent; a failure sends nothing. |
| PyBuyerClient.BuyerClient.BuyItem | src/core/Client/buyer_client.py:30-37 | On success a BUY_REQUEST with the item id and quantity from the client's id has been sent; a failure sends nothing. |
| PyBuyerClient.BuyerClient.HandleStockUpdate | src/core/Client/buyer_client.py:66-75 | The item list and the exception raised are those of applying the update to the old list. |
| PyBuyerClient.BuyerClient.HandleMessagesAsWritten | src/core/Client/buyer_client.py:39-64 | As written, the loop stops on its first pass without reading anything: nothing is consumed or sent. |
| PyBuyerClient.BuyerClient.Handle | src/core/Client/buyer_client.py:44-60 | Handling one message changes the id and item list exactly as the message's handler does. |
| PyBuyerClient.BuyerClient.HandleMessages | src/core/Client/buyer_client.py:39-64 | The loop as evidently intended: messages are handled one by one until a read fails or a handler raises, after which the client is stopped; on a closed socket nothing is handled; nothing is sent. |
| PyBuyerClient.WithoutIdDrops | src/core/Client/buyer_client.py:70-73 | After filtering, no item has the updated id. |
| PyBuyerClient.StockUpdatePlacement | src/core/Client/buyer_client.py:66-75 | After an update that raises nothing, the updated id occurs at most once: at the end of the list when the new quantity is positive, and not at all otherwise. |
| PyBuyerClient.WithoutIdConcat | src/core/Client/buyer_client.py:70-73 | Filtering works element by element, so items with other ids keep their order. |
| PyBuyerClient.WithoutIdAbsent | src/core/Client/buyer_client.py:70-73 | A list without the updated id is left as it is. |
| PyBuyerClient.MalformedUpdateIgnored | src/core/Client/buyer_client.py:66-68 | An update whose dict does not build an item leaves the list as it was. |
| PySellerClient.ItemFromReply | src/core/Client/seller_client.py:36-41 | A reply describes a sale exactly when it is a dict with "item_id", "name" and "quantity"; the sale copies them, and its remaining time defaults to 60.0. |
| PySellerClient.AfterBuyResponse | src/core/Client/seller_client.py:176-184 | Without a current sale nothing happens; otherwise only the sale's quantity changes, going down by the reply's quantity (0 when absent). |
| PySellerClient.AfterStockUpdate | src/core/Client/seller_client.py:186-201 | Without a current sale nothing happens; an update whose `item_id` equals the current sale's under Python's `==` overwrites its quantity; nothing but the quantity and remaining time ever changes, and a malformed update changes nothing. |
| PySellerClient.Dispatch | src/core/Client/seller_client.py:23-70 | Only ACK changes the id and registration, and ACK leaves the sale alone; the handler reaches the reply-recording step exactly for SALE_START, BUY_RESPONSE, SALE_END and ERROR replies whose handling raised nothing before it. |
| PySellerClient.ProcessAsWritten | src/core/Client/seller_client.py:23-70 | As written, no reply is ever recorded or signalled, because the undefined `response_lock` raises first. |
| PySellerClient.Process | src/core/Client/seller_client.py:23-70 | With the lock defined, a reply that reaches the recording step is recorded and signalled, others are not; everything else is as written. |
| PySellerClient.ErrorReply | src/core/Client/seller_client.py:117-118 | A reply makes a request fail exactly when it is an ERROR. |
| PySellerClient.ReplyOutcome | src/core/Client/seller_client.py:113-118 | A request's wait succeeds exactly when it returns without error, with a reply when one is required, and that reply is not an ERROR. |
| PySellerClient.Outcome | src/core/Client/seller_client.py:120-121 | A request succeeds exactly when nothing was raised, and otherwise re-raises "Failed to <action>: ...". |
| PySellerClient.SellerClient.constructor | src/core/Client/seller_client.py:12-21 | A new seller is unconnected, unregistered, with no sale and no reply. |
| PySellerClient.SellerClient.ProcessMessageUpdateAsWritten | src/core/Client/seller_client.py:23-70 | The handler as written changes the state as the as-written handler function does. |
| PySellerClient.SellerClient.ProcessMessageUpdate | src/core/Client/seller_client.py:23-70 | The handler with the lock defined changes the state as the corrected handler function does. |
| PySellerClient.SellerClient.Register | src/core/Client/seller_client.py:72-90 | The REGISTER for a seller is sent; registration succeeds only when it was sent and acknowledged in time, and otherwise times out or re-raises the send failure; the seller's other state is untouched. |
| PySellerClient.SellerClient.StartSale | src/core/Client/seller_client.py:92-121 | Each guard raises its own error before anything is sent; a bad item name fails before the send; when the request can be sent it is, and the result is that of waiting for a required reply; every failure is a RuntimeError. |
| PySellerClient.SellerClient.StartSaleAsWritten | src/core/Client/seller_client.py:92-121 | As written, start_sale always fails, even after the request reaches the server, because `wait_for_response` does not exist. |
| PySellerClient.SellerClient.UpdateStock | src/core/Client/seller_client.py:123-148 | The guards and the negative-quantity check raise before anything is sent; otherwise the STOCK_UPDATE is sent and only a failed wait or an ERROR reply makes it fail. |
| PySellerClient.SellerClient.UpdateStockAsWritten | src/core/Client/seller_client.py:123-148 | As written, update_stock can never succeed. |
| PySellerClient.SellerClient.EndSale | src/core/Client/seller_client.py:150-174 | The guards raise before anything is sent; otherwise the SALE_END is sent; success clears the sale and failure keeps it. |
| PySellerClient.SellerClient.EndSaleAsWritten | src/core/Client/seller_client.py:150-174 | As written, end_sale always fails and the sale stays set. |
| PySellerClient.SaleStartReply | src/core/Client/seller_client.py:34-45 | A successful SALE_START reply sets the sale the reply describes and is recorded; an unsuccessful one leaves the sale alone. |
| PySellerClient.SaleEndReply | src/core/Client/seller_client.py:56-61 | A SALE_END reply always clears the sale and is recorded. |
| PySellerClient.RecordedReplies | src/core/Client/seller_client.py:23-70 | Only SALE_START, BUY_RESPONSE, SALE_END and ERROR replies are ever recorded; SALE_END and ERROR always are; the as-written handler records none. |
| PySimulatedClient.TotalQuantity | src/simulation/simulated_client.py:176 | The total is the sum of the quantities of the purchase history. |
| PySimulatedClient.MaxIndex | src/simulation/simulated_client.py:123 | The scan of `max` ends on a position no earlier than the leader it started with. |
| PySimulatedClient.BestStockItem | src/simulation/simulated_client.py:119-123 | No item is found exactly when the list is empty; a single item is returned if it has a quantity; any item returned is one of the list. |
| PySimulatedClient.KeepOthers | src/simulation/simulated_client.py:166-168 | The filter succeeds exactly when every item has an id (and the update has one when there are items), and then keeps exactly the items whose id differs from the update's under Python's `!=`. |
| PySimulatedClient.AfterStockUpdate | src/simulation/simulated_client.py:163-170 | After an update that raised nothing, every entry with the update's id is gone and the update itself is appended exactly when its quantity is positive; every other entry is kept. |
| PySimulatedClient.AfterUpdate | src/simulation/simulated_client.py:153-161 | Only STOCK_UPDATE and LIST_ITEMS change the items; LIST_ITEMS replaces them by the reply's "items", or an empty list when absent. |
| PySimulatedClient.MinQuantity | src/simulation/simulated_client.py:192-195 | The smaller of the drawn and listed quantities is at most both; a listed value that is not a number raises. |
| PySimulatedClient.PurchaseRequest | src/simulation/simulated_client.py:181-209 | With no items the request is LIST_ITEMS; with a list of items a request is built exactly when the chosen item's id, its quantity (default 0) and the `min` raise nothing, and it is the BUY_REQUEST for that id and the smaller of the drawn and listed quantities. |
| PySimulatedClient.SimulatedClient.constructor | src/simulation/simulated_client.py:16-25 | A new simulated buyer has its id, is unregistered, has no `connected` attribute, no items and no history. |
| PySimulatedClient.SimulatedClient.SendMessage | src/simulation/simulated_client.py:53-57 | A message is handed over exactly when the client is connected; otherwise ConnectionError (or AttributeError before `connected` exists) and nothing is handed over. |
| PySimulatedClient.SimulatedClient.Register | src/simulation/simulated_client.py:31-45 | REGISTER is sent once, and the client marked registered, exactly when it is connected and not yet registered; otherwise nothing changes. |
| PySimulatedClient.SimulatedClient.Connect | src/simulation/simulated_client.py:47-51 | After connecting the client is connected and registered, having sent REGISTER only if it was not registered before. |
| PySimulatedClient.SimulatedClient.RequestItemList | src/simulation/simulated_client.py:125-128 | LIST_ITEMS is sent exactly when the client is connected. |
| PySimulatedClient.SimulatedClient.AttemptPurchase | src/simulation/simulated_client.py:130-151 | Within a second of the last purchase nothing happens; otherwise one BUY_REQUEST is sent and, when sending succeeds, the time and the purchase are recorded; a failed send records nothing. |
| PySimulatedClient.SimulatedClient.ProcessUpdate | src/simulation/simulated_client.py:153-161 | The items become those the update defines, and nothing else changes. |
| PySimulatedClient.SimulatedClient.GetStatistics | src/simulation/simulated_client.py:172-179 | The statistics report the number of purchases, the sum of their quantities and the last purchase time. |
| PySimulatedClient.SimulatedClient.SimulatePurchase | src/simulation/simulated_client.py:181-209 | At most one message is sent: the request built from the items, when the client is connected. |
| PySimulatedClient.SimulatedClient.ProcessMessageUpdate | src/simulation/simulated_client.py:223-255 | Only an ACK carrying "node_id" changes anything: it sets the id and marks the client registered. |
| PySimulatedClient.MaxIndexFirstGreatest | src/simulation/simulated_client.py:123 | The scan of `max` keeps the first item with the greatest quantity, and ends on the first greatest of the whole list. |
| PySimulatedClient.BestStockItemFirstGreatest | src/simulation/simulated_client.py:119-123 | Over two or more items, the best item is the first with the greatest quantity. |
| PySimulatedClient.PurchaseWithinListed | src/simulation/simulated_client.py:189-201 | The quantity a purchase asks for is at most the quantity drawn and at most the chosen item's listed quantity. |
| PySimulatedSeller.DefaultBehavior | src/simulation/simulated_seller.py:16-21 | The default behaviour keeps the drawn specialty, sells between 3.0 and 8.0 units and asks for a duration of 45. |
| PySimulatedSeller.StartedSale | src/simulation/simulated_seller.py:66-74 | A reply without "success" set opens no sale; a successful reply with an id, name and quantity opens the sale they describe, started now; a reply that cannot be read raises. |
| PySimulatedSeller.AfterBuyResponse | src/simulation/simulated_seller.py:76-79 | Selling succeeds exactly when both quantities are numbers, and then only the sale's quantity changes, going down by the reply's quantity (0 when absent). |
| PySimulatedSeller.SimulatedSeller.constructor | src/simulation/simulated_seller.py:12-24 | A new simulated seller has its id and behaviour, no `connected` attribute, no registration, no sale, and has sent nothing. |
| PySimulatedSeller.SimulatedSeller.SendMessage | src/simulation/simulated_seller.py:93-97 | A message is handed over exactly when the seller is connected; otherwise ConnectionError (or AttributeError before `connected` exists) and nothing is handed over. |
| PySimulatedSeller.SimulatedSeller.StartNewSale | src/simulation/simulated_seller.py:26-52 | A seller with an open sale sends nothing; otherwise it sends one SALE_START for its specialty, the drawn quantity and its duration, if it can send at all. |
| PySimulatedSeller.SimulatedSeller.ProcessMessageUpdate | src/simulation/simulated_seller.py:54-91 | An ACK with "node_id" registers the seller and starts a sale; a successful SALE_START opens the sale; a BUY_RESPONSE lowers its quantity; a SALE_END closes it and starts another; every other message changes nothing. |
| PySimulatedSeller.OpenThenSell | src/simulation/simulated_seller.py:66-79 | A sale opened by a reply and then sold from keeps its id, name and start time, and its quantity drops by what was sold. |
| JavaItemV1.RemainingSeconds | app/src/main/java/main/market/Item.java:39-42 | The whole seconds left are never negative, equal 60 minus the elapsed seconds whenever positive, and never exceed 60 once the sale has begun. |
| JavaItemV1.ExpiredIffFullDuration | app/src/main/java/main/market/Item.java:39-46 | An item is expired exactly when 60 whole seconds have elapsed, so at exactly 60 it already is. |
| JavaItemV1.Item.constructor | app/src/main/java/main/market/Item.java:14-21 | The new item holds the given id, name, quantity and seller, and its sale starts now. |
| JavaItemV1.Item.TryPurchase | app/src/main/java/main/market/Item.java:23-32 | A non-positive amount throws IllegalArgumentException; otherwise the purchase succeeds exactly when the amount is at most the quantity, and the quantity follows the shared purchase rule. |
| JavaItemV2.RemainingMillis | app/src/main/java/main/java/main/market/Item.java:64-70 | The milliseconds left are 0 once the item is closed, never negative, equal duration minus elapsed whenever positive, and never exceed the duration once the sale has begun. |
| JavaItemV2.ExpiredIff | app/src/main/java/main/java/main/market/Item.java:64-74 | An item is expired exactly when it was closed or its whole duration has elapsed. |
| JavaItemV2.Item.constructor | app/src/main/java/main/java/main/market/Item.java:22-27 | Once the duration check has passed, the item holds the given fields, starts now, lasts the duration in milliseconds and is open. |
| JavaItemV2.Item.Create | app/src/main/java/main/java/main/market/Item.java:18-28 | A non-positive duration throws "Sale duration must be positive"; otherwise a fresh open item with the given fields and a duration of seconds times 1000 is made. |
| JavaItemV2.Item.TryPurchase | app/src/main/java/main/java/main/market/Item.java:30-46 | A non-positive amount throws before anything else; an expired or closed item refuses and keeps its quantity; an open item sells exactly when enough is left, following the shared purchase rule; closing is never changed. |
| JavaItemV2.Item.ForceClose | app/src/main/java/main/java/main/market/Item.java:76-78 | After closing, the item is closed. |
| JavaItemV2.ClosedItemNeverSells | app/src/main/java/main/java/main/market/Item.java:64-74 | A closed item is expired and has no time left, whatever the time. |
| StockLedger.Open | app/src/main/java/main/market/MarketManager.java:28-50 | A sale opens exactly when the seller has a stock map holding at least the quantity of the commodity; the quantity moves from that stock entry to a new offer and every other stock is kept; otherwise IllegalStateException names the missing seller or the short commodity. |
| StockLedger.Take | app/src/main/java/main/market/MarketManager.java:52-73 | A purchase attempt changes only the quantity of its own offer, by the shared purchase rule. |
| StockLedger.Merge | app/src/main/java/main/market/MarketManager.java:81 | Merging adds the quantity to the commodity's entry (creating it at 0 when absent) and keeps every other entry. |
| StockLedger.Close | app/src/main/java/main/market/MarketManager.java:75-85 | Ending a sale removes its offer; a positive remainder is merged back into the seller's stock when the seller has one, and otherwise the stocks are unchanged. |
| StockLedger.OpenConserves | app/src/main/java/main/market/MarketManager.java:39-45 | Opening a sale under a new id moves stock onto the market: each seller's holding of each commodity (stock plus quantity on offer) is unchanged. |
| StockLedger.OpenOverwriteLoses | app/src/main/java/main/market/MarketManager.java:43-45 | Opening a sale under an id already in use replaces that offer, and its quantity vanishes from the holding. |
| StockLedger.TakeConserves | app/src/main/java/main/market/MarketManager.java:52-73 | A purchase lowers the seller's holding by exactly the amount sold, and no other holding. |
| StockLedger.CloseConserves | app/src/main/java/main/market/MarketManager.java:75-85 | Ending a sale keeps the holding, except that a negative remainder is dropped, which raises the holding by its size. |
| StockLedger.CloseKeepsHeld | app/src/main/java/main/market/MarketManager.java:75-85 | Ending a sale with a non-negative remainder of a seller with a stock map keeps every holding. |
| StockLedger.NegativeSaleCreatesStock | app/src/main/java/main/market/MarketManager.java:28-40 | Because the quantity of a sale is never checked, opening a negative sale and ending it at once leaves the seller with more stock than before. |
| JavaMarketManagerV1.InitialStock | app/src/main/java/main/market/MarketManager.java:18-24 | The opening stock has exactly the four commodities, each at the given quantity. |
| JavaMarketManagerV1.OffersRemove | app/src/main/java/main/market/MarketManager.java:76 | Removing an item removes exactly its offer from the market view. |
| JavaMarketManagerV1.OffersPut | app/src/main/java/main/market/MarketManager.java:45 | Adding an item adds exactly its offer to the market view. |
| JavaMarketManagerV1.MarketManager.constructor | app/src/main/java/main/market/MarketManager.java:10-16 | A new manager has no items and no stocks. |
| JavaMarketManagerV1.MarketManager.InitializeSellerStock | app/src/main/java/main/market/MarketManager.java:18-26 | The seller's stock becomes 5 of every commodity, replacing any earlier one; the items are untouched. |
| JavaMarketManagerV1.MarketManager.StartSale | app/src/main/java/main/market/MarketManager.java:28-50 | A failed start throws the ledger's error and changes nothing; a successful one adds a fresh item under the new id and the state becomes the ledger's opened state. |
| JavaMarketManagerV1.MarketManager.HandleBuyRequest | app/src/main/java/main/market/MarketManager.java:52-73 | An unknown or expired item refuses and changes nothing; otherwise a non-positive amount throws, a positive one succeeds exactly when enough is left, and the state follows the ledger's purchase. |
| JavaMarketManagerV1.MarketManager.EndSale | app/src/main/java/main/market/MarketManager.java:75-85 | The item goes and the state follows the ledger's closing. |
| JavaMarketManagerV1.MarketManager.ExpiredIds | app/src/main/java/main/market/MarketManager.java:93-98 | The ids collected are exactly those of the expired items. |
| JavaMarketManagerV1.MarketManager.GetActiveItems | app/src/main/java/main/market/MarketManager.java:87-91 | The list is exactly the items that are not expired. |
| JavaMarketManagerV1.MarketManager.EndAll | app/src/main/java/main/market/MarketManager.java:93-98 | Ending a set of sales removes exactly those items, keeps the sellers, and keeps every holding when each remainder is non-negative and its seller has a stock map. |
| JavaMarketManagerV1.MarketManager.CleanupExpiredItems | app/src/main/java/main/market/MarketManager.java:93-98 | The sweep removes exactly the expired items and, under the same condition, keeps every holding. |
| JavaMarketManagerV2.InitialStock | app/src/main/java/main/java/main/market/MarketManager.java:18-24 | The opening stock has exactly the four commodities, each at the given quantity. |
| JavaMarketManagerV2.OffersRemove | app/src/main/java/main/java/main/market/MarketManager.java:96 | Removing an item removes exactly its offer from the market view. |
| JavaMarketManagerV2.OffersPut | app/src/main/java/main/java/main/market/MarketManager.java:46 | Adding an item adds exactly its offer to the market view. |
| JavaMarketManagerV2.MarketManager.constructor | app/src/main/java/main/java/main/market/MarketManager.java:10-16 | A new manager has no items and no stocks. |
| JavaMarketManagerV2.MarketManager.InitializeSellerStock | app/src/main/java/main/java/main/market/MarketManager.java:18-26 | The seller's stock becomes 1000 of every commodity, replacing any earlier one; the items are untouched. |
| JavaMarketManagerV2.MarketManager.StartSale | app/src/main/java/main/java/main/market/MarketManager.java:28-51 | A failed start throws the ledger's error and changes nothing; a successful one adds a fresh 60-second item under the new id and the state becomes the ledger's opened state. |
| JavaMarketManagerV2.MarketManager.HandleBuyRequest | app/src/main/java/main/java/main/market/MarketManager.java:53-74 | An unknown or expired item refuses and changes nothing; otherwise a non-positive amount throws, a positive one succeeds exactly when enough is left, and the state follows the ledger's purchase. |
| JavaMarketManagerV2.MarketManager.EndSingleSale | app/src/main/java/main/java/main/market/MarketManager.java:92-107 | The item is closed and removed, the sellers are kept, and the state follows the ledger's closing. |
| JavaMarketManagerV2.MarketManager.ReturnRemainder | app/src/main/java/main/java/main/market/MarketManager.java:97-105 | A positive remainder is merged into its seller's stock when the seller has one; otherwise nothing changes. |
| JavaMarketManagerV2.MarketManager.SellerItemIds | app/src/main/java/main/java/main/market/MarketManager.java:77-79 | The ids collected are exactly those of the seller's items. |
| JavaMarketManagerV2.MarketManager.EndSale | app/src/main/java/main/java/main/market/MarketManager.java:76-90 | Every item of the seller is removed, and no other; holdings are kept when each remainder is non-negative and the seller has a stock map. |
| JavaMarketManagerV2.MarketManager.EndAll | app/src/main/java/main/java/main/market/MarketManager.java:86-88 | Ending a set of sales removes exactly those items, keeps the sellers, and keeps every holding when each remainder is non-negative and its seller has a stock map. |
| JavaMarketManagerV2.MarketManager.ExpiredIds | app/src/main/java/main/java/main/market/MarketManager.java:122-124 | The ids collected are exactly those of the expired items. |
| JavaMarketManagerV2.MarketManager.GetActiveItems | app/src/main/java/main/java/main/market/MarketManager.java:110-114 | The list is exactly the items that are not expired. |
| JavaMarketManagerV2.MarketManager.GetSellerIdForItem | app/src/main/java/main/java/main/market/MarketManager.java:116-119 | The seller is returned exactly for an active item, and is that item's seller; otherwise null. |
| JavaMarketManagerV2.MarketManager.CleanupExpiredItems | app/src/main/java/main/java/main/market/MarketManager.java:121-131 | The sweep removes exactly the expired items and, under the same condition, keeps every holding. |
| JavaMessages.TypeName | app/src/main/java/main/java/main/market/MessageType.java:1-30 | Every message type has a non-empty name. |
| JavaMessages.TypeNamesDistinct | app/src/main/java/main/java/main/market/MessageType.java:1-30 | Two types have the same name exactly when they are the same type. |
| JavaMessages.ClientTypeOf | app/src/main/java/main/java/main/market/MarketServer.java:106 | The role lookup gives BUYER exactly for "BUYER" and SELLER exactly for "SELLER", and otherwise throws IllegalArgumentException naming the text. |
| JavaMessages.AsString | app/src/main/java/main/java/main/market/MarketServer.java:153 | The cast to String succeeds exactly on null or a string, keeping null and the string's text. |
| JavaMessages.AsBool | app/src/main/java/main/client/SellerClient.java:44 | Unboxing a Boolean succeeds exactly on a boolean, yielding it; null throws NullPointerException. |
| JavaMessages.AsDouble | app/src/main/java/main/client/SellerClient.java:48 | Unboxing a Double succeeds exactly on a double, yielding it; null throws NullPointerException. |
| JavaMessages.AsNumber | app/src/main/java/main/java/main/market/MarketServer.java:154 | Reading a Number as a double succeeds exactly on a double or a long, yielding its value; null throws NullPointerException. |
| JavaMarketServer.RegisteredType | app/src/main/java/main/java/main/market/MarketServer.java:106 | A registration names BUYER exactly when its "clientType" is the string "BUYER", SELLER exactly when it is "SELLER"; a missing entry throws NullPointerException and any other value IllegalArgumentException. |
| JavaMarketServer.RequestFields | app/src/main/java/main/java/main/market/MarketServer.java:152-178 | The request's fields are read exactly when the key casts to String (possibly null) and the quantity is a number; a non-string key throws ClassCastException. |
| JavaMarketServer.BuyOn | app/src/main/java/main/java/main/market/MarketServer.java:180 | A purchase throws exactly when the item exists, is not expired and the amount is not positive; a success lowers the item by the amount; a refusal changes nothing. |
| JavaMarketServer.ClientHandler.constructor | app/src/main/java/main/java/main/market/MarketServer.java:76-81 | A new handler is unregistered, has sent nothing and has an open socket. |
| JavaMarketServer.ClientHandler.SendMessage | app/src/main/java/main/java/main/market/MarketServer.java:219-227 | A message is appended to the handler's output when the write succeeds, and a failed write is dropped. |
| JavaMarketServer.ClientHandler.SendError | app/src/main/java/main/java/main/market/MarketServer.java:229-235 | A null error text throws NullPointerException and sends nothing; otherwise an ERROR carrying the text is sent. |
| JavaMarketServer.MarketServer.constructor | app/src/main/java/main/java/main/market/MarketServer.java:20-26 | A new server has no clients and a fresh, empty manager. |
| JavaMarketServer.MarketServer.HandleRegistration | app/src/main/java/main/java/main/market/MarketServer.java:100-123 | Registration succeeds exactly for a REGISTER naming a role: the handler is filed under the new id, a seller gets its opening stock and the handler is acknowledged with the id; anything else throws the first error met and changes nothing. |
| JavaMarketServer.MarketServer.ActiveList | app/src/main/java/main/java/main/market/MarketServer.java:198-207 | The list sent holds the views of exactly the items not yet expired. |
| JavaMarketServer.MarketServer.BroadcastStockUpdate | app/src/main/java/main/java/main/market/MarketServer.java:206-217 | The list of running items goes to every registered buyer once, and to no one else. |
| JavaMarketServer.MarketServer.HandleListItems | app/src/main/java/main/java/main/market/MarketServer.java:197-204 | The running items go back to the asking client, and to no one else. |
| JavaMarketServer.MarketServer.Answer | app/src/main/java/main/java/main/market/MarketServer.java:159-194 | The reply goes to the asking client, then the new item list goes to every buyer exactly when a broadcast is due. |
| JavaMarketServer.MarketServer.Buy | app/src/main/java/main/java/main/market/MarketServer.java:180 | The manager's purchase changes the market exactly as the ledger's purchase does, and reports its result. |
| JavaMarketServer.MarketServer.Start | app/src/main/java/main/java/main/market/MarketServer.java:156 | The manager's sale start changes the market exactly as the ledger's opening does, and the item returned has the new id, the name, the quantity and a full 60 seconds. |
| JavaMarketServer.MarketServer.HandleSaleStart | app/src/main/java/main/java/main/market/MarketServer.java:151-173 | When the manager accepts the sale, the seller is told the item's id, name, quantity and full 60 seconds and the buyers get the new list; otherwise the exception is returned and nothing changes. |
| JavaMarketServer.MarketServer.HandleBuyRequest | app/src/main/java/main/java/main/market/MarketServer.java:175-195 | The market follows the purchase, the buyer is told whether it succeeded, and only a success sends the buyers the new list; a request that throws changes nothing. |
| JavaMarketServer.MarketServer.Dispatch | app/src/main/java/main/java/main/market/MarketServer.java:129-144 | SALE_START, BUY_REQUEST and LIST_ITEMS go to their handlers; every other type, HEARTBEAT and SALE_END included, changes nothing and sends nothing. |
| JavaMarketServer.MarketServer.HandleMessage | app/src/main/java/main/java/main/market/MarketServer.java:125-149 | A handler's exception is caught and its message sent back as an ERROR, with the market unchanged; an exception without a message makes the error reply itself throw NullPointerException. |
| JavaMarketServer.MarketServer.CloseAsWritten | app/src/main/java/main/java/main/market/MarketServer.java:237-245 | As written, closing an unregistered handler throws NullPointerException before the socket is closed; a registered one is removed and its socket closed. |
| JavaMarketServer.MarketServer.Close | app/src/main/java/main/java/main/market/MarketServer.java:237-245 | As evidently intended, the socket is closed whether or not the client registered, and a registered client is removed. |
| JavaMarketServer.MarketServer.Step | app/src/main/java/main/java/main/market/MarketServer.java:125-149 | The only exception that can escape handling one message is NullPointerException. |
| JavaMarketServer.MarketServer.HandleAll | app/src/main/java/main/java/main/market/MarketServer.java:88-92 | The loop handles the messages in turn and stops early exactly when a NullPointerException escapes. |
| JavaMarketServer.MarketServer.Serve | app/src/main/java/main/java/main/market/MarketServer.java:84-98 | A connection whose first message is not a valid registration handles nothing and ends with that error; otherwise every later message is handled until one lets an exception escape, the client is removed at the end, and the socket is always closed. |
| JavaMarketServer.UnregisteredCloseLeaks | app/src/main/java/main/java/main/market/MarketServer.java:237-245 | With close as written, a connection whose first message is not a registration leaves its socket open. |
| JavaClientV1.AckedId | app/src/main/java/main/client/MarketClient.java:82-98 | An ACK carrying a string `clientId` sets the id to it; any other message, or an entry that fails the cast, leaves the id as it was. |
| JavaClientV1.FirstWithId | app/src/main/java/main/client/SellerClient.java:94-100 | The index found names a listed item with the sale's id and no earlier item has it; none is found exactly when no item has it. |
| JavaClientV1.UpdatedItem | app/src/main/java/main/client/SellerClient.java:88-102 | Only a STOCK_UPDATE during a sale can change the record: it becomes the first listed item with the sale's id, stays as it was when none has that id, and a missing list or a non-list value throws NullPointerException or ClassCastException. |
| JavaClientV1.StockUpdateReplacesSale | app/src/main/java/main/client/SellerClient.java:88-102 | A stock update received during a sale leaves the seller's record as the first listed item with the sale's id, or as it was when none matches or the list is unusable. |
| JavaClientV1.NonAcks | app/src/main/java/main/client/MarketClient.java:82-98 | The messages kept are messages received, none of them an ACK, and no more than were received. |
| JavaClientV1.StartReply | app/src/main/java/main/client/SellerClient.java:42-57 | A sale is recorded exactly when the SALE_START reply reports success, with the seller's id and the reply's item id, name and quantity; an ERROR reply throws its text and any other type throws "Unexpected response type". |
| JavaClientV1.EndReply | app/src/main/java/main/client/SellerClient.java:71-81 | `endSale` answers exactly when the reply is a SALE_END with a boolean success, and gives that flag; an ERROR reply throws its text and any other type throws "Unexpected response type". |
| JavaClientV1.MarketClient.constructor | app/src/main/java/main/client/MarketClient.java:22-25 | A new client has no id, is neither running nor connected, and has queued and sent nothing. |
| JavaClientV1.MarketClient.SendFailure | app/src/main/java/main/client/MarketClient.java:100-104 | Writing succeeds exactly when the client is connected and the socket is open. |
| JavaClientV1.MarketClient.SendMessage | app/src/main/java/main/client/MarketClient.java:100-104 | A message is sent exactly when writing succeeds; otherwise the write's exception is returned and nothing is sent. |
| JavaClientV1.MarketClient.HandleMessage | app/src/main/java/main/client/MarketClient.java:82-98 | An ACK may set the id and is not queued; every other message is queued at the end. |
| JavaClientV1.MarketClient.WaitForResponse | app/src/main/java/main/client/MarketClient.java:106-112 | The oldest queued message is taken, or, with nothing queued, a TimeoutException naming the wait is thrown. |
| JavaClientV1.MarketClient.Heartbeat | app/src/main/java/main/client/MarketClient.java:49-63 | A HEARTBEAT with the current time is sent exactly when the client is running, has an id and can write; a failed write is swallowed. |
| JavaClientV1.MarketClient.Close | app/src/main/java/main/client/MarketClient.java:114-125 | The client stops, and the socket is closed if one was opened. |
| JavaClientV1.SellerClient.constructor | app/src/main/java/main/client/SellerClient.java:15-17 | A new seller has no sale and a fresh, unconnected client. |
| JavaClientV1.SellerClient.Register | app/src/main/java/main/client/SellerClient.java:19-26 | A seller REGISTER is sent, or the write's exception is returned with nothing sent. |
| JavaClientV1.SellerClient.Connect | app/src/main/java/main/client/MarketClient.java:27-45 | After connecting the client is running with an open socket and has sent exactly its REGISTER. |
| JavaClientV1.SellerClient.HandleMessage | app/src/main/java/main/client/SellerClient.java:88-102 | The client's state follows the reception of the message, and an exception comes back exactly when the seller's own part throws. |
| JavaClientV1.SellerClient.Receive | app/src/main/java/main/client/MarketClient.java:65-80 | While running, the messages are received in order, exceptions being logged; the end of the stream stops the client. |
| JavaClientV1.SellerClient.StartSale | app/src/main/java/main/client/SellerClient.java:28-58 | With a sale on, IllegalStateException and nothing changes; otherwise the SALE_START is sent and its answer is taken: a timeout or an exception leaves no sale, and a reported success records it. |
| JavaClientV1.SellerClient.EndSale | app/src/main/java/main/client/SellerClient.java:60-82 | With no sale, IllegalStateException; a record without an id throws NullPointerException before sending; otherwise the SALE_END for the item is sent and only a reported success clears the sale. |
| JavaClientV1.ReceivedQueue | app/src/main/java/main/client/MarketClient.java:82-98 | Over any run of messages, the response queue grows by exactly the messages that are not ACKs, in order. |
| JavaClientV1.ReceivedKeepsSale | app/src/main/java/main/client/SellerClient.java:88-102 | Received messages never start or end a sale nor change which item it is. |
| JavaClientV1.AckSetsId | app/src/main/java/main/client/MarketClient.java:85-90 | An ACK carrying a string id, received last, leaves the client with that id whatever came before. |
| JavaClientV2.RegisteredId | app/src/main/java/main/java/main/client/SellerClient.java:25-32 | Registration succeeds exactly on an ACK whose `clientId` is a string or absent, taking it as the id; any other reply fails with "Registration failed". |
| JavaClientV2.StartAnswer | app/src/main/java/main/java/main/client/SellerClient.java:50-68 | A reply that is not a SALE_START means no sale; otherwise the reported success decides, a non-boolean throws, and a success records the seller's own name and quantity with the reply's item id. |
| JavaClientV2.MarketClient.constructor | app/src/main/java/main/java/main/client/MarketClient.java:24-27 | A new client keeps its port, has no id, is not connected and has read and sent nothing. |
| JavaClientV2.MarketClient.SendFailure | app/src/main/java/main/java/main/client/MarketClient.java:49-54 | Writing succeeds exactly when the streams are open and the socket is not closed. |
| JavaClientV2.MarketClient.ReadFailure | app/src/main/java/main/java/main/client/MarketClient.java:62-64 | Reading succeeds exactly when writing would and a message is waiting; otherwise it fails as writing does or at the end of the stream. |
| JavaClientV2.MarketClient.SendMessage | app/src/main/java/main/java/main/client/MarketClient.java:49-54 | A message is sent exactly when writing succeeds; otherwise the write's exception is returned and nothing is sent. |
| JavaClientV2.MarketClient.ReadMessage | app/src/main/java/main/java/main/client/MarketClient.java:62-64 | The oldest unread message is taken, or the read's exception is returned and nothing is consumed. |
| JavaClientV2.MarketClient.Close | app/src/main/java/main/java/main/client/MarketClient.java:67-76 | The client is no longer connected and the socket is closed if one was opened. |
| JavaClientV2.SellerClient.constructor | app/src/main/java/main/java/main/client/SellerClient.java:15-17 | A new seller has no sale and a fresh, unconnected client on the port. |
| JavaClientV2.SellerClient.Register | app/src/main/java/main/java/main/client/SellerClient.java:19-36 | A seller REGISTER is sent and the first reply read: an ACK sets the id, another reply fails with "Registration failed", and no reply is an EOFException. |
| JavaClientV2.SellerClient.Connect | app/src/main/java/main/java/main/client/MarketClient.java:33-40 | After connecting the streams are open, exactly one REGISTER has been sent and its reply decides the id. |
| JavaClientV2.SellerClient.StartSale | app/src/main/java/main/java/main/client/SellerClient.java:38-69 | With a sale on, false and nothing changes; otherwise the SALE_START is sent and the reply read: only a reported success starts a sale, with the record the answer describes. |
| JavaClientV2.SellerClient.EndSale | app/src/main/java/main/java/main/client/SellerClient.java:71-82 | With no sale, false; otherwise the SALE_END is sent and the sale forgotten without waiting for a reply, unless the write fails. |
| JavaClientV2.RecordIsTheRequest | app/src/main/java/main/java/main/client/SellerClient.java:53-61 | A recorded sale always carries the seller's own name and quantity, whatever the reply says, and lasts the port number in seconds. |
| SellerBehaviors.NextIndex | app/src/main/java/main/java/main/simulation/SellerBehavior.java:54-57 | The next index is always in range, one past the last, or back to the first after the last item. |
| SellerBehaviors.IndexAfter | app/src/main/java/main/java/main/simulation/SellerBehavior.java:54-57 | After any number of calls the index names an item, or is -1 before the first call. |
| SellerBehaviors.Between | app/src/main/java/main/java/main/simulation/SellerBehavior.java:63-73 | A value drawn between two bounds lies between them, below the upper bound when the range is not empty. |
| SellerBehaviors.SellerBehavior.constructor | app/src/main/java/main/java/main/simulation/SellerBehavior.java:33-48 | A new behaviour keeps its items and bounds, and has returned no item yet. |
| SellerBehaviors.SellerBehavior.GetNextItem | app/src/main/java/main/java/main/simulation/SellerBehavior.java:54-57 | Each call returns the item after the last one returned, wrapping round; with no items it throws ArithmeticException and changes nothing. |
| SellerBehaviors.SellerBehavior.GenerateQuantity | app/src/main/java/main/java/main/simulation/SellerBehavior.java:63-65 | With the bounds in order the quantity lies between them, strictly below a larger maximum. |
| SellerBehaviors.SellerBehavior.GeneratePrice | app/src/main/java/main/java/main/simulation/SellerBehavior.java:71-73 | With the bounds in order the price lies between them, strictly below a larger maximum. |
| SellerBehaviors.SellerBehavior.GetSaleDuration | app/src/main/java/main/java/main/simulation/SellerBehavior.java:79-83 | The duration is at least the minimum and below the maximum; an empty or inverted range throws IllegalArgumentException. |
| SellerBehaviors.FirstRound | app/src/main/java/main/java/main/simulation/SellerBehavior.java:54-57 | The first round returns the items in order, the k-th call item k-1. |
| SellerBehaviors.Periodic | app/src/main/java/main/java/main/simulation/SellerBehavior.java:54-57 | Calls one list-length apart return the same item. |

## Left out

- Threads, locks and concurrency: each locked public operation is one atomic step, and a call that would wait on a lock it already holds is modelled as blocked.
- Sockets, server sockets and the accept loops (`MarketServer.start`/`shutdown`, the Python server): sockets are modelled as outboxes and inboxes. Opening a connection cannot fail in the model: a refused `socket.connect` (`Client.connect`) or `new Socket(host, port)` (the Java clients' `connect`) is not modelled.
- Executors and schedulers: the heartbeat's fixed-rate schedule, the sale timers and the receiver threads. One tick of each scheduled task is modelled.
- The thread started by `Client.connect`: whether it can be created is modelled, what it runs is not.
- PyMarketManager.MarketManager.GetActiveItems: returns a set, so the insertion order of Python's `list(self.active_items.values())` is not modelled.
- PySimulatedClient.MaxIndex: a quantity that is a string or a list is taken as a TypeError, although Python orders two strings or two lists; the quantities the market sends are numbers.
- Floating-point rounding: quantities and prices are reals.
- Java serialization and `ClassNotFoundException`: messages arrive as values.
- JVM exception messages beyond those the code itself builds.
- Python exception texts the interpreter composes are cut down to their fixed part: a JSONDecodeError loses its ": line L column C (char N)" suffix, and indexing a non-dict top-level value always gives the text for a string ("string indices must be integers"), where CPython names the list, int or NoneType.
- MessageEncoder.DeserializeAccepts: accepts only standard JSON (numbers of every form the JSON grammar allows). Python's `json.loads` also accepts (a) `NaN`, `Infinity` and `-Infinity`, and (b) a lone `\u` surrogate escape, kept in the resulting `str`; this model refuses both with ValueError. Dafny strings cannot hold lone surrogates, and Python floats are not modelled. (c) Python's `json.dumps` writes floats below 1e-4 or from 1e16 upward in exponent form ("1e-05", "1.5e+16"); this model's writer writes a negative exponent as a fraction and never combines a fraction with an exponent, so its text for those numbers differs, although it reads back to the same value.
- Null map values: a key mapped to null is modelled as a missing key.
- Randomness (`random`, `Random.nextDouble`, `nextLong`): the draws are parameters.
- Clocks (`time.time`, `Instant.now`, `System.currentTimeMillis`): the time is a parameter.
- UUID and clock-derived ids: they come from a parameter. Their uniqueness is not proved; the lemmas about opening a sale take a fresh id as a hypothesis.
- Java `long` overflow in the sale-duration span and elapsed-time arithmetic: integers are unbounded.
- Short reads of the 4-byte frame header while more bytes are still on their way: a header read returns the next four bytes, or fewer only when the stream ends (as `recv(4)` does at the end of the stream).
- The v1 Java `Item`'s fields for start time and duration in the seller client's record: the record keeps id, name, quantity and seller.
- Python `str()` of a value shows its JSON text rather than Python's repr.
- The simulated buyer's behaviour patterns (`simulate_behavior`, `_select_behavior_pattern`, `_opportunistic_buying`, `_cautious_buying`, `_bulk_buying`, `_browsing_behavior`): random strategies built from the modelled operations.
- The simulated buyer's `handle_update` and `process_event_update`: event-driven wrappers around the modelled message handling.
- Command-line entry points, simulation drivers, configuration and metrics classes.
- `MarketEventQueue.java` and both Java `BuyerClient.java` files are not part of this model.
- Logging everywhere: log lines have no effect on state.

## Findings

| source | as written | input that shows it | evidently intended | confidence | as-written member | corrected member |
|---|---|---|---|---|---|---|
| src/core/Market/market_manager.py:80,225-243 | `start_sale` calls the redefined `_start_sale_timer`, which uses `threading.Timer` without `threading` being imported | any valid sale request from a seller with stock | the sale is added and its timer started | high, not executed | PyMarketManager.MarketManager.StartSaleAsWritten | PyMarketManager.MarketManager.StartSale |
| src/core/Market/market_manager.py:87-112,145-161 | `end_sale(auto_rotate=True)` calls `start_sale` while holding the same non-reentrant lock | ending a sale with a positive remainder and auto-rotation on | the sale ends and the next commodity goes on sale | high, not executed | PyMarketManager.AutoRotateDeadlocksOnRemainder | PyMarketManager.MarketManager.EndSaleAutoRotate |
| src/core/Market/market_manager.py:197-199 | the current commodity is looked up in the item map with the seller's id, but that map is keyed by item id | a seller with a running sale of flower: rotation still picks flower | rotation starts from the seller's current commodity | high, not executed | PyMarketManager.RotationIgnoresCurrentSale | PyMarketManager.RotationMovesOn |
| app/src/main/java/main/java/main/market/MarketServer.java:93-97,237-240 | `close` calls `clients.remove(clientId)` before closing the socket, and a null id throws NullPointerException | a connection whose first message is not REGISTER | the socket is closed whether or not the client registered | high, not executed | JavaMarketServer.UnregisteredCloseLeaks | JavaMarketServer.MarketServer.Close |
| src/core/Client/buyer_client.py:43 | the loop calls `self.receive_message()`, but `receive_message` is a module-level function of client.py | any buyer whose loop runs | each pass reads and handles one message | high, not executed | PyBuyerClient.BuyerClient.HandleMessagesAsWritten | PyBuyerClient.BuyerClient.HandleMessages |
| src/core/Client/seller_client.py:43,52,58,64 | the reply handlers use `response_lock`, which is never defined | a SALE_START reply with success | the reply is recorded and the waiting call woken | high, not executed | PySellerClient.ProcessAsWritten | PySellerClient.Process |
| src/core/Client/seller_client.py:113,143,167 | `start_sale`, `update_stock` and `end_sale` call `wait_for_response`, which is never defined | a registered seller starting a sale of "flower" | the call waits for the server's reply and acts on it | high, not executed | PySellerClient.SellerClient.StartSaleAsWritten | PySellerClient.SellerClient.StartSale |
