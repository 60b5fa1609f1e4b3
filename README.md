# Bitfa-Trader signal-to-position core, in Dafny

Bitfa-Trader turns trading signals from a Telegram channel into futures
positions on LBank. A language model reads each message; its JSON reply is
cleaned and decoded by the signal parser. The position manager then acts on
it:
- a new signal is checked and stored as a `Signal` row, leverage and margin
  type are set, a limit order sized by risk is placed, the `Position` and
  `Order` rows are recorded and a stop loss is set;
- an update (entry hit, take-profit hit, risk-free, partial close, full
  close, position closed, stop moved) is attached to the most recent live
  signal for its pair, recorded as a `SignalUpdate` row and handed to its
  handler.

Two periodic tasks keep the database in step with the exchange. The order
sweep records fills and cancellations and opens PENDING positions whose
entry order filled. The PnL sweep copies the unrealised PnL the exchange
reports. The LBank client builds every request, signing private ones with
an HMAC-SHA256 over the upper-cased MD5 of the sorted parameters.

The model is organised as follows:

- `wrappers.dfy`: `Option`, and `Field` for a JSON key that is absent, null
  or present.
- `text.dfy`: ASCII case mapping, `str.replace` and integer rendering.
- `search.dfy`: the ORM queries used: the latest row matching a filter, the
  first match of a scan, counting, and the newest-first row list.
- `signal_models.dfy` and `trading_models.dfy`: the choices, the rows, their
  defaults and the unique message ids.
- `store.dfy`: the four tables as a `Store` class whose sequences the ORM
  calls reassign. It also holds the database invariant `Consistent`: valid
  references, unique message ids, at most `MAX_OPEN_POSITIONS` OPEN or
  PENDING positions, and the close ledger, under which what was closed of a
  position equals the quantity of its close orders.
- `lbank_client.dfy`: parameter dicts, signing, nonce, headers, and the
  request each endpoint produces.
- `exchange.dfy`: the exchange as an oracle giving a fixed reply per request
  and logging the requests made.
- `manager.dfy`: the `PositionManager` class. Each of its methods is proved
  equal to a pure effect function of the tables before the call and the
  exchange's replies.
- `manager_properties.dfy`: what those effects promise.
- `tasks.dfy`: the two sweeps, as loops proved equal to folds, and what the
  folds leave in every row.
- `parser.dfy`: `_parse_response` (fence stripping, decoding, the info
  filter).

## Model

| member | source | states |
|---|---|---|
| Wrappers.Field.GetWithDefault | trading/manager.py:40-48 | `parsed.get(k, d)`: `d` when the key is absent, the value when present, None exactly for an explicit null |
| Wrappers.Field.Get | trading/manager.py:42-44 | `parsed.get(k)` is Some exactly when the key is present with a value |
| Text.Upper | trading/manager.py:55 | `upper()` keeps the length and upper-cases every ASCII letter, leaving every other character |
| Text.Lower | trading/tasks.py:91 | `lower()` keeps the length and lower-cases every ASCII letter, leaving every other character |
| Text.ReplaceCharByNothing | trading/manager.py:55 | `replace("/", "")` is the string with every "/" dropped |
| Text.IntToDecimalRoundTrip | trading/lbank/client.py:155 | `str(leverage)` reads back as the same integer |
| Search.LatestWhere | trading/manager.py:234-237 | `filter(...).afirst()` under newest-first ordering: the newest matching row, and None only when no row matches |
| Search.FirstWhere | trading/tasks.py:90-94 | a `for ... break` scan yields the first matching element, and None only when none matches |
| Search.CountWhereSpec | trading/manager.py:58-60 | `acount()` of a filter is the number of matching rows, and zero exactly when no row matches |
| Search.CountWhereAppend | trading/manager.py:58-60 | `acount()` of the OPEN/PENDING filter grows by one exactly when the inserted row matches |
| Search.NewestFirstSpec | trading/tasks.py:28-32 | iterating a filtered queryset visits exactly the matching rows, each once, newest first |
| SignalModels.DirectionFromCode | signals/models.py:6-8 | the direction choices are exactly "long" and "short" |
| SignalModels.StatusFromCode | signals/models.py:11-17 | the signal status choices are exactly the six codes |
| SignalModels.UpdateTypeFromCode | signals/models.py:20-28 | the update type choices are exactly the eight codes |
| SignalModels.CodesRoundTrip | signals/models.py:6-28 | distinct choices have distinct stored codes; each code reads back as its choice |
| SignalModels.DefaultSignal | signals/models.py:34-61 | a Signal given only its required columns takes the declared defaults (NEW, risk 1.0, leverage 8, isolated, confidence 0.0, empty texts, null optionals) |
| SignalModels.AppendSignalUnique | signals/models.py:34 | inserting a Signal keeps `telegram_msg_id` unique exactly when its id is not already taken |
| SignalModels.AppendUpdateUnique | signals/models.py:74 | inserting a SignalUpdate keeps `telegram_msg_id` unique exactly when its id is not already taken |
| SignalModels.StatusChangeKeepsUnique | signals/models.py:34 | changing a Signal's status keeps the message ids unique |
| TradingModels.PositionStatusFromCode | trading/models.py:8-14 | the position status choices are exactly the six codes |
| TradingModels.SideFromCode | trading/models.py:17-21 | the order side choices are exactly the four codes |
| TradingModels.OrderStatusFromCode | trading/models.py:24-30 | the order status choices are exactly the six codes |
| TradingModels.TradingCodesRoundTrip | trading/models.py:8-30 | every position status, side and order status reads back from its code |
| TradingModels.DefaultPosition | trading/models.py:36-62 | a Position given only its required columns is PENDING with zero quantities and PnL, leverage 8, isolated and null prices and times |
| TradingModels.DefaultOrder | trading/models.py:75-89 | an Order given only its required columns is PENDING, a limit order, with empty exchange id and error, zero filled and null prices |
| LBankClient.PutSpec | trading/lbank/client.py:72-75 | `d[k] = v` sets `k`, leaves every other key's value alone, and appends `k` only when it is new |
| LBankClient.SortSpec | trading/lbank/client.py:51 | `sorted(keys)` is a permutation of the keys, strictly ascending when they are distinct |
| LBankClient.SigningIgnoresInsertionOrder | trading/lbank/client.py:44-64 | two dicts with the same contents have the same signing string, whatever order their keys went in |
| LBankClient.SigningSeesEveryValue | trading/lbank/client.py:44-64 | giving any existing key a different value changes the signing string |
| LBankClient.Echostr | trading/lbank/client.py:41-42 | the nonce has 35 characters, all ASCII letters or digits |
| LBankClient.EchostrCoversAlphabet | trading/lbank/client.py:41-42 | every 35-character string of ASCII letters and digits is a possible nonce |
| LBankClient.ParamDict.Set | trading/lbank/client.py:72-75 | assigning into the mutated dict is `Put` on its contents |
| LBankClient.ParamDict.constructor | trading/lbank/client.py:66 | the dict starts with the caller's entries |
| LBankClient.FuturesClient.constructor | trading/lbank/client.py:23-34 | the client keeps its key, secret, signature method and digest primitives |
| LBankClient.FuturesClient.AuthHeaders | trading/lbank/client.py:66-86 | the dict gains api_key, signature_method, timestamp and echostr and then `sign` over all of them; the headers carry the same timestamp, method and nonce |
| LBankClient.AuthAddsExactlyFour | trading/lbank/client.py:71-75 | exactly the four auth keys are added, after the caller's and in order, with the given values; no other entry changes and `sign` is not signed |
| LBankClient.SignatureVerifies | trading/lbank/client.py:77-85 | the sent `sign` is the signature of the sent dict without `sign` |
| LBankClient.HeadersMatchParams | trading/lbank/client.py:79-84 | the header timestamp, signature method and nonce equal the signed values |
| LBankClient.HeaderValues | trading/lbank/client.py:79-84 | the headers are the JSON content type, timestamp, signature method and nonce |
| LBankClient.FuturesClient.GetRequest | trading/lbank/client.py:88-95 | a GET sends the dict unsigned with no headers, or signed with the auth headers when `auth` is set |
| LBankClient.FuturesClient.PostRequest | trading/lbank/client.py:97-102 | a POST always sends the signed dict and the auth headers |
| LBankClient.FuturesClient.Issue | trading/lbank/client.py:104-270 | each endpoint method issues exactly `RequestFor` its path and dict |
| LBankClient.SignedIffPrivate | trading/lbank/client.py:104-145 | the four public endpoints go out as unsigned GETs; every other endpoint is a signed POST carrying `sign` |
| LBankClient.PayloadHasNoAuthKeys | trading/lbank/client.py:104-270 | no endpoint's own dict uses a key that authentication adds |
| LBankClient.OrderBaseValues | trading/lbank/client.py:188-194 | an order dict holds symbol, side, volume, type and productGroup "SwapU", in that order |
| LBankClient.OrderSendsPriceOnlyForLimit | trading/lbank/client.py:171-197 | an order sends `price` exactly when a non-empty price is given for a limit order |
| LBankClient.MarginTypeCode | trading/lbank/client.py:160-169 | `positionType` is "1" exactly for "isolated", else "2" |
| LBankClient.LeverageSentAsDecimal | trading/lbank/client.py:149-158 | leverage is sent as its decimal string, which reads back as the same integer |
| LBankClient.StopAndTakeProfitDifferOnlyInKind | trading/lbank/client.py:228-270 | stop-loss and take-profit share the path and every entry except `orderType`, and both trigger on the mark price |
| LBankClient.SymbolFilterOnlyWhenGiven | trading/lbank/client.py:140-145 | the positions and open-orders queries send `symbol` exactly when a truthy symbol is given |
| Exchange.Venue.constructor | trading/lbank/client.py:23-34 | the exchange starts with its fixed replies and an empty request log |
| Exchange.Venue.Call | trading/lbank/client.py:88-102 | each request is logged and answered with the exchange's reply to it |
| Database.OpenCount | trading/manager.py:58-60 | the count of OPEN or PENDING positions is at most the number of positions |
| Database.OpenCountSpec | trading/manager.py:58-60 | the cap query counts exactly the OPEN and PENDING positions, and is zero exactly when none is OPEN or PENDING |
| Database.EmptyConsistent | trading/models.py:33-97 | the empty database satisfies the invariant |
| Database.PositionStepKeepsConsistent | trading/manager.py:252-350 | rewriting one position, plus at most one order for it that matches the closed amount, keeps the invariant |
| Database.SignalStatusKeepsConsistent | trading/manager.py:151-160 | changing a signal's status keeps the invariant |
| Database.AppendUpdateKeepsConsistent | trading/manager.py:198-207 | recording an update for an existing signal under a fresh id keeps the invariant |
| Database.OpenPositionKeepsConsistent | trading/manager.py:125-146 | opening a position below the cap with its non-closing entry order keeps the invariant |
| Database.AppendSignalKeepsConsistent | trading/manager.py:66-83 | inserting a signal under a fresh message id keeps the invariant |
| Database.Store.constructor | trading/models.py:33-97 | the tables start empty |
| Database.Store.InsertSignal | trading/manager.py:66-83 | a Signal insert is refused when its message id is taken; otherwise it appends the row under the next id |
| Database.Store.InsertUpdate | trading/manager.py:198-207 | a SignalUpdate insert succeeds exactly when its message id is fresh, and then appends the row |
| Database.Store.InsertPosition | trading/manager.py:125-135 | a Position insert appends the row under the next id |
| Database.Store.InsertOrder | trading/manager.py:138-146 | an Order insert appends the row under the next id |
| Database.Store.SaveSignal | trading/manager.py:151-152 | saving a Signal rewrites that row only |
| Database.Store.SavePosition | trading/manager.py:246-247 | saving a Position rewrites that row only |
| Database.Store.SaveOrder | trading/tasks.py:42-45 | saving an Order rewrites that row only |
| Manager.Round4 | trading/manager.py:117 | `round(size, 4)` lies on the 1/10000 grid within half a step of the size |
| Manager.Abs | trading/manager.py:98 | the stop distance is non-negative and is the difference up to sign |
| Manager.PositionSize | trading/manager.py:92-105 | no size exactly when the stop equals the entry; otherwise size × distance = balance × risk% / 100 × leverage |
| Manager.FindActiveSignal | trading/manager.py:379-389 | the newest NEW/ACTIVE signal matching the pair exactly up to case, else the newest containing the base currency, else None; with no symbol, the newest live signal |
| Manager.PositionFor | trading/manager.py:258-261 | the newest position of the signal in an eligible status, and None only when there is none |
| Manager.CloseSide | trading/manager.py:268-272 | the close side is close_long exactly for a long signal, and is always a closing side |
| Manager.SignalRecord | trading/manager.py:66-83 | the Signal built is NEW with the message id, chat, pair, direction, entry and stop given; building raises exactly when take_profits, risk_percent, leverage, margin_type or confidence is null |
| Manager.HandlerKind | trading/manager.py:176-202 | exactly the seven handled kinds have a handler; "info", anything else and a missing type have none |
| Manager.CloseQuantity | trading/manager.py:266 | closing 100% closes all that remains and closing 0% closes nothing |
| Manager.AfterPartialClose | trading/manager.py:292-298 | the remainder drops by the closed quantity; CLOSED with its closing time exactly when nothing remains, PARTIALLY_CLOSED otherwise; nothing else changes |
| Manager.PositionManager.constructor | trading/manager.py:23-24 | the manager keeps its settings, database and exchange client |
| Manager.PositionManager.HandleNewSignal | trading/manager.py:40-161 | `handle_new_signal` leaves the outcome, tables and calls of `NewSignalEffect` |
| Manager.PositionManager.ExecuteSignal | trading/manager.py:86-161 | the `try` block makes the calls of `Execute`, gives the signal its final status and records its Position and Order |
| Manager.PositionManager.HandleUpdate | trading/manager.py:163-211 | `handle_update` leaves the outcome, tables and calls of `UpdateEffect` |
| Manager.PositionManager.RiskFree | trading/manager.py:229-250 | `_handle_risk_free` leaves the tables and calls of `RiskFreeEffect` |
| Manager.PositionManager.SlModified | trading/manager.py:352-375 | `_handle_sl_modified` leaves the tables and calls of `SlModifiedEffect` |
| Manager.PositionManager.PartialClose | trading/manager.py:252-302 | `_handle_partial_close` leaves the tables and calls of `PartialCloseEffect` |
| Manager.PositionManager.FullClose | trading/manager.py:304-350 | `_handle_full_close` leaves the tables and calls of `FullCloseEffect` |
| ManagerProperties.NormalizeDeletesSlashesAndUpperCases | trading/manager.py:55 | the normalised pair has no "/" and no lower-case ASCII letter, and is the input without "/" upper-cased |
| ManagerProperties.NormalizeIdempotent | trading/manager.py:55 | normalising twice is normalising once |
| ManagerProperties.Round4OnGrid | trading/manager.py:117 | a value already on the 1/10000 grid is left as it is |
| ManagerProperties.Round4Idempotent | trading/manager.py:117 | rounding twice is rounding once |
| ManagerProperties.Round4TiesToEven | trading/manager.py:117 | a value halfway between two grid points goes to the even one |
| ManagerProperties.CloseQuantityWithinRemaining | trading/manager.py:266 | closing 0 to 100 percent of a non-negative remainder closes between nothing and all of it |
| ManagerProperties.NewSignalRefusal | trading/manager.py:50-63 | a signal is refused (nothing written, no call) exactly when symbol, direction, entry or stop is falsy or the open count reaches the cap |
| ManagerProperties.NewSignalEscape | trading/manager.py:66-83 | a complete signal under the cap raises with nothing written exactly when a null field breaks the insert or its message id is taken |
| ManagerProperties.ExecuteCalls | trading/manager.py:86-161 | execution first sets leverage, then margin type, then reads the account; it ends ACTIVE, NEW or CANCELLED |
| ManagerProperties.ExecuteCreates | trading/manager.py:104-149 | the recorded Position is PENDING with nothing closed, sized by the risk rule; the limit Order is for the same quantity at the entry price, on the open side; the volume sent is rounded to four places; the stop goes at the signal's stop |
| ManagerProperties.NewSignalReturned | trading/manager.py:66-161 | a signal past the checks becomes the newest Signal and ends ACTIVE on full success, NEW when the stop is on the entry, CANCELLED on a failed call; Position and Order exist exactly when the entry order was accepted |
| ManagerProperties.NewSignalKeepsConsistent | trading/manager.py:40-161 | a new signal keeps the database invariant |
| ManagerProperties.UpdateRecording | trading/manager.py:163-211 | with no live signal or no handler nothing is written or called; otherwise exactly one SignalUpdate is appended for the matched signal before the handler runs, unless its message id is taken, which raises with nothing written |
| ManagerProperties.DispatchKeepsUpdates | trading/manager.py:215-375 | no handler touches the update records |
| ManagerProperties.HitsChangeNothing | trading/manager.py:215-227 | an entry or take-profit hit is recorded and changes nothing else |
| ManagerProperties.RiskFreeMovesStopToEntry | trading/manager.py:229-250 | one stop-loss call at the entry price on the newest OPEN/PENDING position; when it succeeds, that position's stop becomes the entry price and nothing else changes |
| ManagerProperties.SlModifiedMovesStop | trading/manager.py:352-375 | nothing happens for a falsy new stop; otherwise, once the stop-loss call succeeds, the newest OPEN/PENDING position's stop becomes the new stop |
| ManagerProperties.PartialCloseEffects | trading/manager.py:252-302 | one market close for `close_percentage` (default 50) of the remainder; once accepted, the remainder drops by exactly that quantity, a SUBMITTED close order records it, and the position is CLOSED when nothing remains, PARTIALLY_CLOSED otherwise; a failed call changes nothing |
| ManagerProperties.PartialCloseSkipsPartiallyClosed | trading/manager.py:258-261 | a partial close never touches a position other than its target, so a PARTIALLY_CLOSED position is left alone |
| ManagerProperties.FullCloseEffects | trading/manager.py:304-350 | one market order for all that remains on the newest OPEN/PENDING/PARTIALLY_CLOSED position; once accepted, a close order is recorded, the position is emptied and CLOSED, and the signal is CLOSED |
| ManagerProperties.DispatchKeepsConsistent | trading/manager.py:215-375 | every handler keeps the database invariant |
| ManagerProperties.FullCloseKeepsConsistent | trading/manager.py:304-350 | a full close keeps the database invariant |
| ManagerProperties.UpdateKeepsConsistent | trading/manager.py:163-211 | an update keeps the database invariant |
| Tasks.FrameKeepsConsistent | trading/tasks.py:25-97 | any change within the sweeps' frame keeps the database invariant |
| Tasks.SweepOrders | trading/tasks.py:32-60 | the order sweep never touches signals or updates, and adds or removes no row |
| Tasks.OrderQueries | trading/tasks.py:34-37 | one `get_order` per visited order, in visiting order, on its position's symbol and exchange id |
| Tasks.SyncOrders | trading/tasks.py:25-63 | `_sync_orders` visits the SUBMITTED/PARTIALLY_FILLED orders newest first and leaves the tables and calls of the order fold |
| Tasks.SyncEachOrder | trading/tasks.py:32-63 | the loop over the loaded orders equals the order fold |
| Tasks.SyncOrder | trading/tasks.py:33-63 | one iteration equals one fold step, with one request |
| Tasks.SweepOrdersFrame | trading/tasks.py:41-60 | the order sweep stays within the sweep frame: no signal or update changes, no row is added or removed, orders keep position, side and quantity, positions keep signal, quantities and standing against the cap |
| Tasks.SyncOrdersKeepsConsistent | trading/tasks.py:25-63 | the order sweep keeps the database invariant |
| Tasks.SweepOrdersOrderRow | trading/tasks.py:41-60 | a visited order holds what the exchange said about it; any other order is unchanged |
| Tasks.SyncedOrderMeaning | trading/tasks.py:41-60 | FILLED exactly on "filled"/"completed", for the whole quantity, at the average price or else the order's price; CANCELLED exactly on "cancelled"; unchanged otherwise |
| Tasks.SyncOrdersOrderRow | trading/tasks.py:25-63 | an order that was not waiting is untouched; a waiting one is FILLED or CANCELLED exactly as the exchange reported, and untouched otherwise |
| Tasks.SweepOrdersPositionRow | trading/tasks.py:47-53 | a position is unchanged unless a visited order of it filled while it was PENDING; then it is OPEN since now at the fill price of the last such order visited, because each fill rewrites the stale snapshot; other columns as they were |
| Tasks.SyncOrdersEntryPrice | trading/tasks.py:28-53 | visiting orders newest first over the stale snapshot, a promoted position ends with the fill price of its oldest filled waiting order as `entry_price` |
| Tasks.SyncOrdersPositionRow | trading/tasks.py:47-53 | the sweep only takes positions from PENDING to OPEN, any filled order of a PENDING position does so, and `entry_price` becomes the `filled_price` of the oldest such order |
| Tasks.MatchingEntry | trading/tasks.py:90-94 | the first exchange entry whose lower-cased side equals the position's side, and None only when there is none |
| Tasks.FindEntry | trading/tasks.py:90-94 | the scan with `break` finds exactly that first matching entry |
| Tasks.SweepPnl | trading/tasks.py:82-97 | the PnL sweep touches only positions, and adds or removes none |
| Tasks.PnlQueries | trading/tasks.py:84 | one `get_positions` per visited position, on its symbol |
| Tasks.SyncPnl | trading/tasks.py:75-97 | `_sync_pnl` visits the OPEN/PARTIALLY_CLOSED positions newest first and leaves the tables and calls of the PnL fold |
| Tasks.SyncEachPosition | trading/tasks.py:82-97 | the loop over the loaded positions equals the PnL fold |
| Tasks.SyncPositionPnl | trading/tasks.py:83-97 | one iteration equals one fold step, with one request |
| Tasks.SweepPnlRow | trading/tasks.py:85-94 | a visited position holds the reported PnL, if any; any other position is unchanged |
| Tasks.SyncPnlRow | trading/tasks.py:75-97 | a followed position takes the PnL of the first entry on its side (0 when none is given) and nothing else changes; with no entries, no match, a failed call or a position not followed, it is unchanged |
| Tasks.SyncPnlKeepsConsistent | trading/tasks.py:75-97 | the PnL sweep keeps the database invariant |
| SignalParser.Lookup | signals/parser.py:114 | `data.get(key)` on a decoded object is None exactly when the key is absent; a repeated key yields its last value |
| SignalParser.DropSpacesSpec | signals/parser.py:105 | `\s*` at the start removes the longest run of leading whitespace |
| SignalParser.TrimSpacesSpec | signals/parser.py:106 | `\s*` before the end removes the longest run of trailing whitespace |
| SignalParser.StripOpeningFenceSpec | signals/parser.py:105 | a leading "```json" and the whitespace after it are removed; other text is unchanged |
| SignalParser.StripClosingFenceSpec | signals/parser.py:106 | a trailing "```" (also before a final newline) and the whitespace before it are removed; other text is unchanged |
| SignalParser.ParseResponse | signals/parser.py:103-117 | the cleaned text is decoded; undecodable text or a symbol-less info object gives None; a decoded value that is not an object raises at `.get`; any other object is returned as decoded |
| SignalParser.UnfencedTextUnchanged | signals/parser.py:105-106 | text with no fence at either end reaches the decoder unchanged |
| SignalParser.FencedBodyRecovered | signals/parser.py:105-106 | a body wrapped in "```json", whitespace, "```" is recovered exactly, when it has no whitespace at its ends |
| SignalParser.FenceBeforeFinalNewline | signals/parser.py:106 | with a newline after the closing fence, the fence is removed but that newline survives |
| SignalParser.InfoFilter | signals/parser.py:114-115 | a decoded object is refused exactly when its message type is "info" and its symbol is missing or falsy |

## Left out

- The MD5 and HMAC-SHA256 digests are a parameter (`Digests`) rather than implemented; the properties proved hold for any digest functions.
- The wall clock, `time.time()`, `timezone.now()` and `random.choices` are inputs (`now`, `nowMillis`, `pick`), with one clock reading per entry point: the order sweep stamps every position it opens with the same `now`, where trading/tasks.py:52 reads the clock once per promoted position.
- HTTP, `raise_for_status` and `resp.json()` are modelled by `Exchange.Venue`: a fixed reply per request, and `Failed` for any exception the request raises.
- A JSON `null` inside an exchange reply is not distinguished from a missing key.
- The same request is assumed to get the same reply within one run.
- `str()` is an abstract rendering (`Config.decimalText`) of both the parsed JSON numbers (entry price and stop loss at trading/manager.py:118, 149 and 370) and the Decimals (trading/manager.py:117, 245, 278 and 326), as a function of the numeric value only. The int/float spelling of a JSON number (`2000` against `2000.0`) and a Decimal's exponent (trailing zeros kept by `round(x, 4)` or by a DecimalField read back with 8 places) are lost, so the model sends one string where the source may spell the same value differently.
- Decimal arithmetic is exact real arithmetic. The 8-place, 20-digit storage of `DecimalField` and the Decimal context precision are not modelled, nor are floats and NaN/Infinity in the JSON.
- Manager.Parsed: `leverage` and `tp_number` are taken to be integers, although the reply schema allows any JSON number (signals/parser.py:53, 55). A float leverage's spelling on the wire (`8.0` sent by `set_leverage` at trading/manager.py:88), a fractional leverage in sizing (trading/manager.py:105) and its truncation by the IntegerFields on insert (trading/manager.py:78, 129) are not modelled.
- The `close_percentage` column of SignalUpdate is an IntegerField; the model stores the parsed value as given. The close quantity itself uses the parsed value, as the source does.
- `upper()` and `lower()` map ASCII letters only. Unicode case mapping, and Django's `iexact` and `icontains` beyond ASCII, are not modelled.
- Rows are ordered by creation, and `created_at` ties are assumed absent, so "newest" is the highest row id.
- A database error raised by a save or insert inside a `try` block is not modelled. The raising paths that are modelled are: a failed exchange call; an insert refused by a taken message id; a null take_profits, risk_percent, leverage, margin_type or confidence in a new signal (trading/manager.py:72-82, `Escaped`); a null close_percentage in a partial close (trading/manager.py:254, 266, `HandlerEscaped`); and a reply that decodes to JSON other than an object (`data.get` at signals/parser.py:114, `Raised`).
- Tasks.SyncOrders: requires every order to refer to an existing position, which the foreign key guarantees.
- The JSON decoder of `_parse_response` is a parameter (`decode`).
- The `parse()` method that calls the language model, and its prompt, are left out.
- SignalParser.FenceBeforeFinalNewline: covers a non-empty body only.
- The client's `close()` and the Celery task wrappers are left out.
- Concurrency between the Telegram listener and the Celery workers is left out; every entry point runs alone.
- The Telegram listener, the dashboard, the admin and the bot command are left out: they only call into the modelled core or display its rows.
- The settings module is left out; its two values (`MAX_OPEN_POSITIONS`, `DEFAULT_RISK_PERCENT`) are `Manager.Config` fields. The client's fallbacks to `LBANK_API_KEY`, `LBANK_SECRET_KEY` and `LBANK_SIGNATURE_METHOD` when an argument is empty (trading/lbank/client.py:30-33) are left out too: `FuturesClient` is given its key, secret and signature method already resolved.
- `updated_at` is left out: it is set automatically on every save and nothing in the core reads it.
