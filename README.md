# Poloniex client core, modelled in Dafny

This project models the deterministic core of a Go client for the Poloniex exchange. The client
talks to the exchange over a REST API and a push websocket. The model covers:

- **Order registry** (`Observer`): the `WebsocketObserver` class maps order IDs to the side and
  symbol of orders placed over REST. `NilObserver` is the variant that tracks nothing.
- **Channel registry and subscriptions** (`Websocket`): `setChannelsID`'s name/ID tables are the
  `Registry` class. Each subscription queue is a buffered channel of capacity 256 (`Queue`). `WSClient`
  keeps the queue table and the control messages written to the socket. It also routes each
  incoming frame to its decoder and offers the result to a queue without blocking.
- **Frame decoders** (`WebsocketPublic`, `WebsocketPrivate`): the ticker, market and account
  decoders take already-parsed JSON values. Each returns `Ok`, a returned error (`Err`, from a
  checked type assertion or a parse failure) or a run-time panic (`Panic`, from an unchecked
  assertion or an index out of range).
- **Fill join**: the fills that `ListeningReports` streams for trades of tracked orders, received from
  the ACCOUNT queue.
- **REST helpers** (`PrivateApi`, `PublicApi`):
  - request parameters and the upper-casing of symbols;
  - the open-order pruning of `GetAllOpenOrders`;
  - `GetOrderStat`'s classification;
  - `Buy`/`Sell` registration with the observer;
  - `GetChartData`'s validation and query string;
  - the trade-history and order-book query strings;
  - the key routing of `Volume.UnmarshalJSON`.
- **Utilities** (`Utils`, `Errors`): `intInSlice`, `parseStringToTime` and the `Error` formatter.

Helper modules:

- `Json` models a decoded JSON value. It also models the Go semantics the decoders rely on: map
  lookup where the last duplicate key wins, `%v`, `%.0f`, and `int(f)` truncation.
- `Text` models decimal numerals, `strconv.Atoi`, the syntax `strconv.ParseFloat` accepts, and
  ASCII upper-casing.

Float fields are kept as the decimal text the server sent, checked against the syntax
`strconv.ParseFloat` accepts. JSON numbers are exact reals.

Two behaviours of the code are worth knowing when reading the decoders:

- The trade sub-message's side code is asserted to be a number without a check
  (websocket_public.go:203). A side code sent as the string `"1"` therefore panics instead of
  decoding (`WebsocketPublic.TextSideCodePanics`).
- The ticker's frozen flag is `true` for every number except 0 (websocket_public.go:106-114).

## Model

| member | source | states |
|---|---|---|
| Errors.Error | errors.go:29-35 | with no argument the text is exactly the message; otherwise the message, a space and the arguments in brackets, with `%s` placeholders left unsubstituted |
| Errors.ErrorKeepsMessage | errors.go:29-35 | the message always leads the error text, and the text is longer than the message exactly when arguments are given |
| Errors.ErrorArgumentRecoverable | errors.go:30-31 | two one-argument errors with the same message are equal iff their arguments are equal |
| Errors.ChannelErrorKeepsPlaceholder | errors.go:19 | the `%s` of ChannelError stays literal and the channel name follows it in brackets |
| Errors.AllOk | websocket_public.go:133-139 | a frame loop succeeds iff every element succeeds, with one value per element at the same index; otherwise it yields a failure |
| Errors.FirstFailureWins | websocket_private.go:133-135 | after a run of successes, the first failing element decides the result of the whole frame |
| Text.NatToString | websocket_private.go:147 | the decimal numeral is non-empty, all digits and has no leading zero |
| Text.Atoi | utils.go:30-50 | an optional sign, at least one digit, and a 64-bit range check; every accepted value is in range |
| Text.NatToStringRoundTrip | utils.go:30-50 | reading back a numeral gives the number it was written from |
| Text.IntToStringRoundTrip | websocket.go:209 | strconv.Atoi inverts strconv.Itoa over the 64-bit range |
| Text.UnderscoresSeparateDigits | websocket_public.go:70 | in a literal ParseFloat accepts, every underscore stands between two digits |
| Text.UnderscoredLiteral | websocket_public.go:70 | digit-separating underscores are accepted ("1_000.5", "2e1_0"); a leading, trailing, doubled or dot-adjacent one is refused |
| Text.NatToStringIsFloatText | websocket_public.go:149-150 | every decimal numeral is a float literal strconv.ParseFloat accepts |
| Text.ToUpper | websocket_public.go:45 | same length, no lower-case letter left, and each character either kept or mapped from a-z to A-Z |
| Text.ToUpperIdempotent | websocket_public.go:45 | upper-casing twice is upper-casing once |
| Json.Lookup | websocket_public.go:142-146 | a decoded map holds a key iff some member has it; the last member with the key wins |
| Json.EntriesAreTheMap | websocket_public.go:148-160 | iterating a decoded map visits each key exactly once with the value the map holds |
| Json.DistinctKeysCount | websocket_public.go:148-160 | entries with distinct keys are as many as their keys |
| Json.EntriesCount | websocket_public.go:148-160 | iterating a decoded map visits as many entries as it has keys |
| Json.Trunc | websocket.go:157 | `int(f)` truncates toward zero |
| Json.RoundHalfEven | websocket_private.go:147 | the result lies within one half of the real, and an exact tie goes to the even neighbour |
| Json.FormatFixed0 | websocket_private.go:147 | `%.0f` of a non-negative value is a non-empty run of digits; of a negative value, a minus followed by digits |
| Json.FormatFixed0Value | websocket_private.go:147 | the digits `%.0f` prints (after the minus of a negative value) read back as the magnitude rounded half to even |
| Json.FormatFixed0OfNat | websocket_private.go:147 | a whole number prints under `%.0f` as its plain decimal numeral |
| Json.Show | websocket_private.go:188 | `%v` prints a string as it is, nil as `<nil>`, a boolean as `true`/`false`, a slice in brackets and a map as `map[…]` |
| Json.ShowWholeNumber | websocket_private.go:188 | a whole number of magnitude below a million prints under `%v` as its decimal numeral |
| Json.Member | websocket_public.go:143-146 | `m[key]` succeeds iff the key is present, with the value the map holds for it |
| Json.StringAt | websocket_public.go:168 | `xs[i].(string)` succeeds iff i is in range and the element is a string, and otherwise panics |
| Json.NumberAt | websocket_public.go:174 | `xs[i].(float64)` succeeds iff i is in range and the element is a number, and otherwise panics |
| Json.FloatAt | websocket_public.go:180-184 | ParseFloat of a string element succeeds iff the text is a float literal, keeps the text, and fails with the given error otherwise |
| Json.Check | websocket_private.go:140-196 | the assertions and parses of a sub-message, run in order, pass iff the elements meet every demand |
| Json.FindFirstUnmet | websocket_private.go:140-196 | elements that fail some demand have exactly one first failing demand |
| Json.CheckStopsAtFirstUnmet | websocket_private.go:140-196 | the first failing demand decides the outcome: a panic for a missing element or a failed unchecked assertion, its own error for a checked assertion, a failed parse or an unknown code |
| Utils.IntInSlice | utils.go:9-16 | true iff the value occurs in the list |
| Utils.Component | utils.go:30-50 | a component slice panics iff its bounds are outside the string; a success is the Atoi of the slice |
| Utils.ParseStringToTime | utils.go:28-56 | every returned error is WrongTimeFormat |
| Utils.ParseStringToTimeReadsOffsets | utils.go:30-50 | a successful parse reads year, month, day, hour, minute and second at offsets 0-4, 5-7, 8-10, 11-13, 14-16 and 17 to the end |
| Utils.ParseStringToTimeSucceeds | utils.go:28-56 | conversely, when all six slices exist and read as integers, the parse succeeds with exactly those six values |
| Utils.ParseStringToTimeFirstFailure | utils.go:28-56 | the components are read in order, and the first one that fails decides: a panic when its slice is out of range, WrongTimeFormat when its text is no integer |
| Utils.SixteenCharactersPanic | utils.go:50 | a 16-character input whose first five components read as integers panics on the seconds slice t[17:] |
| Utils.ParseExample | utils.go:29 | "2021-07-09 03:46:50" parses to (2021, 7, 9, 3, 46, 50) |
| Utils.SeparatorsIgnored | utils.go:30-50 | inputs that differ only at offsets 4, 7, 10, 13 and 16 parse alike |
| Utils.ShortInputPanics | utils.go:30 | an input shorter than four characters panics when the year is sliced |
| Utils.SeventeenCharactersNeverParse | utils.go:50 | a 17-character input leaves the seconds empty and never parses |
| Observer.Observed | observer.go:49-67 | an untracked ID gains exactly {side, symbol, id}; a tracked one leaves the registry unchanged; other entries are kept |
| Observer.ObserveError | observer.go:52-55 | Observe refuses exactly the tracked IDs |
| Observer.Deleted | observer.go:81-94 | exactly the ID is removed and every other entry is kept |
| Observer.DeleteError | observer.go:83-86 | Delete refuses exactly the untracked IDs |
| Observer.Retrieved | observer.go:69-79 | a tracked ID yields its object with no error; an untracked one the zero object and "orderID … not registered" |
| Observer.WebsocketObserver.IsObservable | observer.go:38-47 | true iff the ID is tracked; nothing changes |
| Observer.WebsocketObserver.Observe | observer.go:49-67 | the new registry is Observed of the old one, the error is ObserveError, and every entry stays filed under its own ID |
| Observer.WebsocketObserver.Items | observer.go:69-79 | the result is Retrieved of the registry, which is left unchanged |
| Observer.WebsocketObserver.Delete | observer.go:81-94 | the new registry is Deleted of the old one, and the error is DeleteError |
| Observer.NilObserver.Observe | observer.go:113-115 | always nil |
| Observer.NilObserver.Delete | observer.go:117-119 | always nil |
| Observer.NilObserver.IsObservable | observer.go:128-130 | always false |
| Observer.OperationsKeepWellKeyed | observer.go:49-94 | Observe and Delete keep every entry filed under its own order ID |
| Observer.ObserveThenRetrieve | observer.go:49-79 | after observing a fresh ID, Items yields that side and symbol, and observing it again is refused |
| Observer.DeleteThenRetrieve | observer.go:69-94 | after Delete, Items and a second Delete both fail |
| Observer.DeleteUndoesObserve | observer.go:49-94 | deleting a freshly observed ID restores the registry |
| Observer.ObservableIffRetrievable | observer.go:38-79 | IsObservable holds iff Items succeeds, which ListeningReports relies on |
| WebsocketPublic.ChannelName | websocket_public.go:68 | the registered name of an ID, or the empty string for an unknown ID |
| WebsocketPublic.DecodeTicker | websocket_public.go:67-130 | decodes iff the elements meet the ticker demands (element 0 and 7 numbers, 1-6, 8 and 9 strings holding floats); the symbol is the registered name of `int` of element 0, IsFrozen holds iff element 7 is non-zero, and each of the eight amounts is the text of its element |
| WebsocketPublic.TickerFirstFailure | websocket_public.go:67-127 | otherwise the first failing field decides: the error WSTickerError naming it for a bad float text or a non-number IsFrozen, a panic for a missing element or an unchecked assertion of the wrong type |
| WebsocketPublic.TickerRoundTrip | websocket_public.go:67-130 | decoding the array of a ticker whose texts are valid floats gives the ticker back |
| WebsocketPublic.LenientFloat | websocket_public.go:149-150 | a parse whose error is ignored keeps valid text and reads anything else as zero |
| WebsocketPublic.Books | websocket_public.go:148-160 | one Book per entry, in visiting order; a non-string quantity anywhere panics |
| WebsocketPublic.BuildBooks | websocket_public.go:148-153 | the loop over one side of the book yields Books of the decoded map's entries |
| WebsocketPublic.BooksPanicsFrom | websocket_public.go:150 | any non-string quantity makes the whole side panic |
| WebsocketPublic.DecodeDepth | websocket_public.go:140-163 | an "i" sub-message decodes to an OrderDepth update or panics; it never returns an error |
| WebsocketPublic.BooksPerKey | websocket_public.go:148-160 | one side of the book has one level per key of its map, each at the quantity the map holds for that key |
| WebsocketPublic.DepthLevelsPerKey | websocket_public.go:142-160 | there are as many bids as bid keys and as many asks as ask keys, and each bid is the level of one key with the quantity the map holds |
| WebsocketPublic.DecodeOrderBook | websocket_public.go:165-192 | decodes iff elements 1-3 meet the order-book demands; OrderBookRemove iff the amount is "0.00000000", bid iff element 1 is 1, and the rate and amount are the texts sent |
| WebsocketPublic.OrderBookFirstFailure | websocket_public.go:165-192 | otherwise the first failing field decides: a panic for a missing or mistyped element, WSOrderBookError naming Rate or Amount for a bad float text |
| WebsocketPublic.ParseInt | websocket_public.go:197-201 | succeeds iff Atoi accepts the text, else fails with the given error |
| WebsocketPublic.DecodeNewTrade | websocket_public.go:194-224 | decodes iff elements 1-5 meet the trade demands; TradeID is element 1 read by Atoi, buy iff element 2 is 1, rate and amount the texts sent and Total element 5 |
| WebsocketPublic.NewTradeFirstFailure | websocket_public.go:194-224 | otherwise the first failing field decides: NewTradeError naming TradeID, Rate or Amount for a bad text, a panic for a missing or mistyped element |
| WebsocketPublic.TextSideCodePanics | websocket_public.go:203 | a trade whose side code is the string "1" panics |
| WebsocketPublic.MarketTagDecidesType | websocket_public.go:139-225 | for every decoded sub-message the tag alone decides the update type: i OrderDepth, o an order-book type, t NewTrade, any other tag the zero update |
| WebsocketPublic.DecodeMarketEntry | websocket_public.go:136-139 | a sub-message that is not an array with a string tag panics |
| WebsocketPublic.UnknownMarketTag | websocket_public.go:139-225 | a tag other than i, o and t yields the zero update, whatever follows it |
| WebsocketPublic.MarketResults | websocket_public.go:135 | one decoding per sub-message, in order |
| WebsocketPublic.DecodeMarketUpdates | websocket_public.go:133-230 | success iff every sub-message decodes, with one update per sub-message at the same index |
| WebsocketPublic.ConvertDepth | websocket_public.go:140-163 | the "i" case with its two loops computes DecodeDepth |
| WebsocketPublic.DepthSides | websocket_public.go:142-146 | the assertions before the book loops decide whether DecodeDepth panics, and what it builds from |
| WebsocketPublic.ConvertEntry | websocket_public.go:136-226 | one iteration of the frame loop computes DecodeMarketEntry |
| WebsocketPublic.ConvertArgsToMarketUpdate | websocket_public.go:133-230 | the frame loop fills res[i] in order and computes DecodeMarketUpdates; any failure abandons the frame |
| WebsocketPrivate.OrderSide | websocket_private.go:174-186 | code 1 is "buy", code 0 is "sell", and nothing else is known |
| WebsocketPrivate.OrderSideRoundTrip | websocket_private_messages.go:6-11 | side codes and side names are in one-to-one correspondence |
| WebsocketPrivate.UpdateKind | websocket_private.go:212-226 | f, s and c map to fill, self-trade and canceled, and nothing else is known |
| WebsocketPrivate.UpdateKindRoundTrip | websocket_private.go:212-226 | kind letters and names are in one-to-one correspondence |
| WebsocketPrivate.WalletName | websocket_private.go:301-311 | e, m and l map to exchange, margin and lending, and nothing else is known |
| WebsocketPrivate.WalletRoundTrip | websocket_private.go:301-311 | wallet letters and names are in one-to-one correspondence |
| WebsocketPrivate.DecodePending | websocket_private.go:140-196 | decodes iff elements 1-7 meet the pending demands (numbers at 1, 2 and 5 with side code 0 or 1, floats as text at 3 and 4, a string at 7); the update is typed Pending and holds every field: `%.0f` of 1 and 2, the texts of 3, 4 and 7, OrderSide of 5 and `%v` of 6 |
| WebsocketPrivate.PendingFirstFailure | websocket_private.go:140-196 | otherwise the first failing field decides: its named Account Notification error, WrongOrderType for an unknown side code, or a panic for a missing element |
| WebsocketPrivate.DecodeOrderUpdate | websocket_private.go:198-235 | decodes iff elements 1-5 meet the order-update demands; the update is typed OrderUpdate and holds `%.0f` of 1, the texts of 2 and 5, UpdateKind of the letter at 3 and `%v` of 4 |
| WebsocketPrivate.OrderUpdateFirstFailure | websocket_private.go:198-235 | otherwise the first failing field decides: the OrderNumber or orderType error, WrongOrderType for a letter other than f, s and c, the NewAmount or CanceledAmount parse error, or a panic for a missing element or a non-string amount |
| WebsocketPrivate.DecodeTrade | websocket_private.go:237-290 | decodes iff elements 1-11 meet the trade demands; the update is typed Trade and holds all eleven fields: `%.0f` of 1 and 6, the texts of 2, 3, 4, 7 and 10, and `%v` of 5, 8, 9 and 11 |
| WebsocketPrivate.TradeFirstFailure | websocket_private.go:237-290 | otherwise the first failing field decides: the TradeId or OrderNumber error, the parse error naming a float field, or a panic for a missing element or a non-string float |
| WebsocketPrivate.DecodeBalance | websocket_private.go:292-324 | decodes iff elements 1-4 meet the balance demands; the update is typed BalanceUpdate and holds `%.0f` of 1, WalletName of the letter at 2 and the texts of 3 and 4 |
| WebsocketPrivate.BalanceFirstFailure | websocket_private.go:292-324 | otherwise the first failing field decides: the CurrencyID error, "unknown balance.Wallet type" for a letter other than e, m and l, the Amount or Balance parse error, or a panic for a missing element or a non-string wallet or amount |
| WebsocketPrivate.DecodeNewOrder | websocket_private.go:326-366 | decodes iff elements 1-8 meet the new-order demands; the update is typed NewOrder and holds `%v` of 1, 6 and 8, `%.0f` of 2, OrderSide of 3 and the texts of 4, 5 and 7 |
| WebsocketPrivate.NewOrderFirstFailure | websocket_private.go:326-366 | otherwise the first failing field decides: the OrderNumber error, WrongOrderType for an unknown side code, the parse error naming a float field, or a panic for a missing element or a non-number side code |
| WebsocketPrivate.DecodeMargin | websocket_private.go:368-387 | decodes iff elements 1-4 meet the margin demands; the update is typed MarginPositionUpdate and holds `%.0f` of 1, `%v` of 2 and 4 and the text of 3 |
| WebsocketPrivate.MarginFirstFailure | websocket_private.go:368-387 | otherwise the first failing field decides: the OrderNumber error, the Amount parse error, or a panic for a missing element or a non-string amount |
| WebsocketPrivate.DecodeKill | websocket_private.go:389-401 | decodes iff element 1 is a number and element 2 exists; the update is typed Kill and holds `%.0f` of 1 and `%v` of 2 |
| WebsocketPrivate.KillFirstFailure | websocket_private.go:389-401 | otherwise the kill parsing error for a non-number order number, or a panic for a missing element |
| WebsocketPrivate.DecodeAccountEntry | websocket_private.go:136-402 | a sub-message that is not an array with a string tag panics; a decoded one has the type its tag announces (p Pending … k Kill), and that type names the kind of its data |
| WebsocketPrivate.UnknownAccountTag | websocket_private.go:139-400 | a tag other than p, o, t, b, n, m and k yields the zero update, whatever follows it |
| WebsocketPrivate.AccountResults | websocket_private.go:135 | one decoding per sub-message, in order |
| WebsocketPrivate.DecodeAccount | websocket_private.go:133-408 | success iff every sub-message decodes, with one well-typed update per sub-message at the same index |
| WebsocketPrivate.ConvertArgsToAccountNotification | websocket_private.go:133-408 | the frame loop computes DecodeAccount |
| WebsocketPrivate.FillsOf | websocket_private.go:101-122 | an update yields a fill iff it is a Trade of a tracked order, and at most one |
| WebsocketPrivate.TradeFills | websocket_private.go:101-126 | a batch yields at most one fill per update |
| WebsocketPrivate.TradeFillsAppend | websocket_private.go:100-126 | consecutive batches yield their fills one after the other |
| WebsocketPrivate.FillsComeFromTrackedTrades | websocket_private.go:103-121 | every fill reports a trade of a tracked order, with the registry's side and symbol and the trade's order, ID, rate, amount and date |
| WebsocketPrivate.TrackedTradesAreFilled | websocket_private.go:103-121 | every trade of a tracked order is reported as a fill |
| WebsocketPrivate.UntrackedNeverFilled | websocket_private.go:102-124 | a batch with no trade of a tracked order yields no fill |
| WebsocketPrivate.FillsAppend | websocket_private.go:100-127 | a further batch appends exactly its own fills |
| WebsocketPrivate.CollectFills | websocket_private.go:99-128 | the fill loop emits Fills of the batches against the observer's registry |
| Websocket.WithNames | websocket.go:120-125 | the name table gains exactly the ticker names |
| Websocket.IDsOf | websocket.go:120-125 | the ticker IDs in order |
| Websocket.WithIDs | websocket.go:120-125 | the ID table gains exactly the ticker IDs |
| Websocket.NamesAfter | websocket.go:127-131 | after setChannelsID, "TICKER"→1002 and "ACCOUNT"→1000 hold in the name table |
| Websocket.IDsAfter | websocket.go:127-131 | after setChannelsID, 1002→"TICKER" and 1000→"ACCOUNT" hold, winning any collision with a market ID |
| Websocket.NameRegistered | websocket.go:120-125 | when the ticker names are distinct, the loop files every name under its own ID |
| Websocket.NameAfterSetup | websocket.go:120-131 | after setChannelsID, every market name other than the two fixed names maps to its own ID |
| Websocket.IDRegistered | websocket.go:120-125 | the loop maps an ID back to the last ticker that carries it |
| Websocket.IDAfterSetup | websocket.go:120-131 | after setChannelsID, an ID other than the two fixed IDs maps back to the last ticker that carries it |
| Websocket.Registry.SetChannelsID | websocket.go:112-134 | a fetch error changes nothing; otherwise the tables become NamesAfter and IDsAfter, and the IDs are appended to marketChannels |
| Websocket.Queue.TryPush | websocket.go:188-194 | a non-blocking send buffers the value iff fewer than 256 are buffered, and otherwise leaves the queue unchanged |
| Websocket.Queue.Pop | websocket_private.go:100 | a receive takes the oldest buffered value and leaves the rest in order |
| Websocket.Sign | websocket.go:247-261 | refused with SetAPIError iff the key or the secret is empty; otherwise the hex HMAC of the form data keyed by the secret |
| Websocket.FrameShape | websocket.go:146-161 | a frame is usable iff it is an array of at least three elements whose first is a number and whose third is an array |
| Websocket.RouteOf | websocket.go:165-186 | TICKER goes to the ticker decoder, ACCOUNT to the account decoder, market channels to the market decoder, and every other ID is ignored |
| Websocket.Decoded | websocket.go:165-186 | each route's result is its decoder's result |
| Websocket.DecodeFrame | websocket.go:146-194 | a badly shaped frame, an ignored ID and a decoder error deliver nothing; a decoder panic is a panic; a success goes to the channel named by the ID |
| Websocket.Delivered | websocket.go:188-194 | an update is appended to its channel's queue iff the channel is subscribed and has room, and nothing else changes |
| Websocket.DeliveredKeepsBound | websocket.go:22 | queues stay within 256 updates, and what was buffered stays in front |
| Websocket.StepFrame | websocket.go:139-196 | one frame decodes and delivers on top of a run that has not panicked |
| Websocket.DeliveredAll | websocket.go:139-196 | the run over many frames keeps the set of subscribed channels and never returns an error |
| Websocket.WSClient.constructor | websocket.go:42-58 | a client with no subscriptions that has sent nothing |
| Websocket.WSClient.Subscribe | websocket.go:199-221 | a queue is created only for a new name, and `subscribe` with the decimal ID is written on every call |
| Websocket.WSClient.Unsubscribe | websocket.go:226-245 | nothing is sent without a queue; otherwise `unsubscribe` with the name is sent; the queue is kept |
| Websocket.WSClient.SubscribeMarket | websocket_public.go:44-52 | an unknown upper-cased name fails with ChannelError and changes nothing; otherwise the name gains a queue if it had none, every existing queue and its contents are kept, and `subscribe` with the registered ID is sent |
| Websocket.WSClient.UnsubscribeMarket | websocket_public.go:56-64 | an unknown upper-cased name fails with ChannelError; otherwise the upper-cased name is unsubscribed |
| Websocket.WSClient.SubscribeTicker | websocket_public.go:32-34 | TICKER gains an empty queue if it had none, every existing queue and its contents are kept, and `subscribe` 1002 is sent |
| Websocket.WSClient.UnsubscribeTicker | websocket_public.go:38-40 | unsubscribes TICKER |
| Websocket.WSClient.SubscribeToAccountNotification | websocket_private.go:40-81 | the queue is created first and existing queues are kept; a signing failure is SetAPIError and sends nothing; otherwise an authenticated `subscribe` is sent with the ID, the key, the nonce payload and its MAC keyed by the secret |
| Websocket.WSClient.SubscribeAccount | websocket_private.go:30-32 | ACCOUNT gains an empty queue if it had none and existing queues are kept; a signing failure is SetAPIError and sends nothing; otherwise the authenticated `subscribe` 1000 with key, signature and nonce payload is sent |
| Websocket.WSClient.UnsubscribeAccount | websocket_private.go:35-37 | unsubscribes ACCOUNT |
| Websocket.WSClient.ListeningReports | websocket_private.go:90-97 | with an ACCOUNT queue nothing changes and nothing fails; otherwise it subscribes to ACCOUNT, and fails with SetAPIError, sending nothing, only on a signing failure |
| Websocket.WSClient.HandleFrame | websocket.go:146-194 | one frame changes the buffered updates as DecodeFrame and Delivered say, and panics iff its decoder panics |
| Websocket.WSClient.Offer | websocket.go:188-194 | the update is buffered iff its channel is subscribed and its queue has room |
| Websocket.AccountBatches | websocket_private.go:100-101 | the batches the fill goroutine receives are the account batches at the head of the queue, in order, up to the first item whose type assertion fails |
| Websocket.WSClient.PopAccount | websocket_private.go:100 | a receive on the ACCOUNT queue yields its oldest update and leaves every other queue and the socket untouched |
| Websocket.WSClient.ReceiveAccountBatches | websocket_private.go:100-101 | the ACCOUNT queue is received from in order; it stops at the first item that is not a batch of account updates, which panics and is consumed, and otherwise empties the queue; other queues are untouched |
| Websocket.WSClient.DrainAccountFills | websocket_private.go:99-128 | the fills streamed are Fills of the account batches received, against the observer's registry; it panics iff a non-account item is buffered, and the ACCOUNT queue keeps only what follows that item |
| Websocket.WSClient.HandleFrames | websocket.go:139-196 | the buffered updates after the frames are DeliveredAll's, and the loop panics iff the run does |
| Websocket.PanicPersists | websocket.go:139-196 | once a frame panics, the handler never resumes |
| PrivateApi.FormatFixed8 | private_api.go:346-347 | `FormatFloat(x, 'f', 8, 64)` gives digits, a point and exactly eight decimals, with a minus for negatives |
| PrivateApi.FormatFixed8OfNat | private_api.go:346-347 | a whole amount is written with eight zero decimals |
| PrivateApi.FormatFixed8Value | private_api.go:346-347 | without its sign and point, the text reads back as the magnitude times 10^8 rounded half to even |
| PrivateApi.NewAddressRequest | private_api.go:102 | the currency is upper-cased |
| PrivateApi.OpenOrdersRequest | private_api.go:132 | the market is upper-cased |
| PrivateApi.TradeHistoryRequest | private_api.go:209-215 | the market is upper-cased, with the start, end and limit in decimal |
| PrivateApi.TradeHistoryReadsBack | private_api.go:211-214 | the start, end and limit read back as the numbers they were written from |
| PrivateApi.OrderRequest | private_api.go:344-348 | the market is upper-cased, and the rate and amount are written with eight decimals |
| PrivateApi.SymbolsUpperCased | private_api.go:102 | every market or currency symbol in a request is upper case |
| PrivateApi.NonEmptyMarkets | private_api.go:166-170 | exactly the markets with at least one open order remain, with their lists unchanged |
| PrivateApi.NonEmptyMarketsIdempotent | private_api.go:166-170 | pruning twice is pruning once, and pruning never adds a market |
| PrivateApi.GetAllOpenOrders | private_api.go:147-172 | an error is returned as is; otherwise the loop removes exactly the empty markets |
| PrivateApi.GetOrderStat | private_api.go:288-327 | a request error, then a decoding error, then success 0 with a non-empty error text, then a second decoding error is returned, each in that order; success 1 returns the entry for the order or the zero status; any other success code is "unexpected result" |
| PrivateApi.ServerErrorWins | private_api.go:305-309 | a server error text wins over the result map |
| PrivateApi.EmptyErrorIsNotReported | private_api.go:305-326 | an empty error text with success 0 is not reported as an error |
| PrivateApi.Registration | private_api.go:364 | Observe after an order: the order is tracked afterwards; a fresh one is filed with the given side and the upper-cased market, and a tracked one leaves the registry unchanged |
| PrivateApi.SellAsWrittenReportsBuy | private_api.go:392 | as written, a trade of a fresh sell order is reported as a buy fill |
| PrivateApi.RegisteredSideReachesFill | private_api.go:364 | a trade of a fresh order is reported with the side it was placed with |
| PrivateApi.Poloniex.Buy | private_api.go:343-367 | the request is recorded; a request error returns without registering; otherwise the order is registered as a buy, even when decoding failed, and Observe's error is dropped |
| PrivateApi.Poloniex.Sell | private_api.go:371-395 | as written: like Buy with a sell request, but the order is registered as Registration(…, "buy", …), as Buy's is |
| PublicApi.PeriodSeconds | public_api.go:238-253 | 5m, 15m, 30m, 2h, 4h and 1d are the only periods, each between 300 and 86400 seconds |
| PublicApi.PeriodRoundTrip | public_api.go:238-253 | period names and lengths are in one-to-one correspondence |
| PublicApi.ChartWindow | public_api.go:258-271 | two set times at least one period apart, or both zero for the day up to now; a shorter span is TimePeriodError, and exactly one zero time is TimeError |
| PublicApi.ChartAction | public_api.go:234-277 | a bad period is PeriodError whatever the times; otherwise the action is built iff the window is accepted, and a refused window returns ChartWindow's error |
| PublicApi.ChartActionWindow | public_api.go:255-277 | an accepted action names the upper-cased market, the window ChartWindow accepted ((start, end) as given, or (now - 86400, now) when both are zero) and the period in seconds, and the three numbers read back |
| PublicApi.PeriodCheckedFirst | public_api.go:238-253 | the period is checked before the times |
| PublicApi.SpanOfOnePeriod | public_api.go:259-265 | a span of exactly one period is accepted, and one second less is refused |
| PublicApi.TradeHistoryAction | public_api.go:204-208 | the action is `returnTradeHistory&currencyPair=` and the upper-cased market; with exactly two times `&start=<first>&end=<second>` follows in decimal, and otherwise nothing |
| PublicApi.TradeHistoryWindowReadsBack | public_api.go:204-208 | the start and end of the appended window read back as the two times they were written from |
| PublicApi.OrderBookAction | public_api.go:176-177 | the action is returnOrderBook for the upper-cased market, followed by the depth in decimal |
| PublicApi.OrderBookDepthReadsBack | public_api.go:176-177 | the depth reads back from the end of the action |
| PublicApi.SetTotal | public_api.go:64-111 | a total key sets its own field and no other |
| PublicApi.VolumeEntry | public_api.go:62-119 | a total must be a string holding a float and sets its field; any other key must be an object or null and becomes a per-market entry |
| PublicApi.UnmarshalVolume | public_api.go:54-123 | the loop over the response's keys computes DecodeVolume, stopping at the first key that does not decode |
| PublicApi.VolumeErrorPersists | public_api.go:60-121 | a failing key ends the decoding with its error |
| PublicApi.VolumeKeys | public_api.go:62-119 | the per-market entries are exactly the keys other than the six totals |
| PublicApi.VolumeTotalAt | public_api.go:64-111 | with distinct keys, a total key's field holds the text it carries |
| PublicApi.VolumeTotals | public_api.go:64-111 | with distinct keys, every total key present fills its field with the text it carries |
| PublicApi.VolumeRouting | public_api.go:62-119 | the six total keys fill their fields with the text they carry, and exactly the other keys become per-market entries |

## Left out

- Socket I/O is left out: dialing, reconnecting, reading frames and write failures (websocket.go:61-110). Writes are appended to `WSClient.sent`, and frames are given as a sequence.
- Locks, goroutines and channels are left out. Each operation is atomic, including the check-then-lock of `Observe`.
- The blocking send of a fill (websocket_private.go:121) is not modelled: `CollectFills` returns the fills it would send.
- Websocket.WSClient.DrainAccountFills: it receives what the ACCOUNT queue holds and returns; the goroutine's wait for more updates is not modelled. It receives all the batches first and then collects their fills; the fills and their order are those of the goroutine.
- Websocket.WSClient.DrainAccountFills: every account update buffered is taken to carry the data its type names (AccountTyped), as the account decoders produce it; the `msg.Data.(Trade)` assertion failing is not modelled.
- HMAC-SHA512 and its hex encoding are the function parameter `hmacHex`, applied to the secret (the MAC key) and the form data.
- The clock is left out. `now` is a parameter: nanoseconds for the nonce, Unix seconds for chart data.
- The HTTP client, throttling and JSON encoding are left out. This covers `checkServerError`, the JSON rendering of control messages and requests, and the text of `encoding/json` and `strconv` errors. Decoded values are inputs, and a `Volume` decoding failure carries an error that names its key.
- Floating point is not modelled. Numbers are exact reals, float fields keep their text, and the text must match `strconv.ParseFloat`'s decimal and inf/nan syntax, including underscores between digits. Hexadecimal floats and range errors are not modelled, and `Book.UnmarshalJSON` and `parseJSONFloatString` are not modelled separately.
- `Volume.UnmarshalJSON` keeps per-currency amounts as JSON values; decimal validation of them is not modelled.
- Map iteration order is fixed: each key is visited once, in the document order of its last occurrence. Go may use any order, so Bids/Asks and `marketChannels` are exact for that one order.
- Text.ToUpper: ASCII only; `strings.ToUpper` also maps non-ASCII letters.
- Utils.ParseStringToTime: strings are sequences of characters, while Go slices bytes, so the offsets and the panics agree with the source only on ASCII input. On other input the model and the source can disagree: for example, "2021-07-09 03:46é50" parses in the model but not in Go.
- Utils.Component: its slice bounds are character offsets; Go's are byte offsets, so they agree only on ASCII input.
- Utils.ParseStringToTimeSucceeds: holds in the source for ASCII input only, as the slices are byte offsets there.
- Utils.SixteenCharactersPanic: holds in the source for ASCII input only; a 16-character input with a multi-byte character has 17 bytes or more in Go, so t[17:] does not panic and the result is WrongTimeFormat instead.
- Utils.ShortInputPanics: holds in the source for ASCII input only; a short input with multi-byte characters can be four bytes long.
- Utils.SeparatorsIgnored: holds in the source for ASCII separators only; a multi-byte separator shifts the byte offsets after it.
- Utils.ParseStringToTime: returns the six components; `time.Date`'s normalisation of out-of-range values is not modelled. `WrongTimeFormat` is not defined in errors.go, so the model gives it a text of its own.
- PublicApi.ChartWindow: times are Unix seconds, and nanoseconds are ignored. "One day before now" is 86400 seconds. The 64-bit wrap of `int(v2-v1)` is not modelled.
- PublicApi.ChartAction: the request the action is sent with and the decoding of the candles are left out.
- WebsocketPrivate.DecodeTrade: `Trade.Date` is declared as a time but assigned the `%v` text; the model keeps the text.
- WebsocketPrivate.DecodeTrade, WebsocketPublic.DecodeTicker, WebsocketPublic.DecodeOrderBook and WebsocketPublic.DecodeNewTrade: on a parse error the source returns the partly filled result with the error; the model returns only the error, which every caller acts on.
- The `OrderObserver` interface is not modelled: the REST client and the websocket client both use `WebsocketObserver` directly. `NilObserver`'s methods take `int64` IDs, which do not match the interface; the model gives them string IDs. The `Poloniex` client's `observer` field does not exist in client.go; the model adds it.
- The REST calls other than those above (balances, deposits, cancel, currencies, loans) only send a request and decode its answer, and are not modelled.

## Findings

| source | as written | input that shows it | evidently intended | confidence | as-written member | corrected member |
|---|---|---|---|---|---|---|
| private_api.go:392 | `Sell` registers the order with side "buy" | any successful sell whose order number is not yet tracked; its trade is then reported as a buy fill | register side "sell", as `Buy` does with "buy" | high; not executed | PrivateApi.SellAsWrittenReportsBuy | PrivateApi.RegisteredSideReachesFill |
