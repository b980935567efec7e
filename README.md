# Bracket-order trading bot: a Dafny model

This project models the core of a small HTTP service that turns one trade instruction into a bracket of exchange orders. The instruction gives a symbol, a side, a quantity, a leverage, an order mode and take-profit and stop-loss percentages. The service works in this order:

- it sets the leverage for the symbol on the futures exchange;
- in the mode `Both` it fetches the last price and computes a take-profit and a stop-loss trigger price from it;
- it places a `STOP_MARKET` order and then a `TAKE_PROFIT_MARKET` order, each closing the whole position, good till cancelled, under a freshly generated client order id;
- it folds the two leg results into one answer.

The model also covers the HTTP layer's request validation, its credentials update into the nested config, and the way it hands the bot's result back.

Files:

- `results.dfy`: `Option`, `Result` and `Outcome`. An `Err` or `Fail` holds the text of the Python exception (`str(e)`).
- `json.dfy`: JSON values as Python sees them, and the built-ins the program applies to them: truthiness, `dict.get`, subscripting (the exact KeyError text `'key'`), item assignment and `float()`.
- `rounding.dfy`: `round(x, 2)` on exact reals, kept as a separate step.
- `binance_helper.dfy`: the bot. It has:
  - client order ids;
  - side mapping and bracket pricing;
  - the placer specification `Place`;
  - the run specification `RunTrade` with its lemmas;
  - the `Gateway` class, which stands for the exchange: it logs every call that talks to the exchange, and each such call answers with a response the caller supplies; switching on sandbox mode only sets a flag, is not logged and cannot fail;
  - the `Bot` class, with `clientId`; the methods `CreateString`, `PlaceStopMarket`, `PlaceTakeProfitMarket` and `Run` are proved against the specification functions `NewClientId`, `Place` and `RunTrade`, while the constructor and `FetchOrderStatus` state their results directly in their contracts.
- `app.dfy`: `/update-config` (`UpdateConfig`, `SetCredentials`) and `/execute-trade` (`MissingParams`, `ExecuteTrade`, a method that builds a `Bot` and runs it).

Inputs that stand in for the outside world:

- The random 7-character id suffix is an `Option<string>` drawn from `[A-Z0-9]`. `None` means the draw raised.
- Every exchange response is an argument. For `Bot.Run`, a `Script` holds them in the order the bot asks for them.
- The content of `config.json` is an argument, and so are the outcome of writing it and the outcome of building the exchange client.

When both legs fail, the stop-loss failure is reported, because binance_helper.py:125-128 tests that leg first (`Merge`, `PlacementResult`).

## Model

| member | source | states |
|---|---|---|
| BinanceHelper.MakeClientId | binance_helper.py:27-30 | the id is the prefix `x-40PTWbMI` followed by the 7 drawn characters from A-Z0-9, 17 characters in all, and the drawn suffix can be read back from it |
| BinanceHelper.ClientIdInjective | binance_helper.py:28-30 | two generated ids are equal exactly when their drawn suffixes are |
| BinanceHelper.ClientIdFromSuffix | binance_helper.py:27-30 | every string of the generated shape is the id of exactly one draw |
| BinanceHelper.NewClientId | binance_helper.py:26-34 | generation yields an id exactly when the draw succeeded, and None when it raised |
| BinanceHelper.Bot.CreateString | binance_helper.py:24-34 | returns the generated id and stores it in `clientId`; a failed draw returns None and leaves `clientId` as it was |
| BinanceHelper.PositionSideOf | binance_helper.py:108 | the position is LONG exactly when the request's side is the string "Buy", SHORT otherwise |
| BinanceHelper.ClosingSide | binance_helper.py:54 | the exit orders SELL for a LONG position and BUY for a SHORT one |
| BinanceHelper.ClosingSideOpposesEntry | binance_helper.py:79 | the exit orders of a "Buy" request sell, and those of any other request buy |
| BinanceHelper.ExactBracket | binance_helper.py:115-120 | before rounding, a long take-profit lies `price * tp%/100` above the entry and its stop-loss `price * sl%/100` below; a short position mirrors both |
| BinanceHelper.Bracket | binance_helper.py:115-120 | both exit prices are whole hundredths, each within half a hundredth of the exact formula |
| BinanceHelper.LongBracketOrdering | binance_helper.py:115-117 | for a positive entry price, a long stop-loss lies below the entry iff its percentage is positive, and the take-profit lies above it iff that percentage is positive |
| BinanceHelper.ShortBracketOrdering | binance_helper.py:118-120 | the mirror image for short positions: take-profit below the entry iff its percentage is positive, stop-loss above it iff that percentage is positive |
| BinanceHelper.RoundedBracketOrdering | binance_helper.py:115-120 | after rounding, an entry price in whole hundredths still lies between the exits on the correct sides, for non-negative percentages |
| BinanceHelper.RoundedBracketStrict | binance_helper.py:115-120 | when each offset is at least one hundredth, the rounded exits lie strictly on their sides of the entry |
| BinanceHelper.BracketExamples | binance_helper.py:111-120 | a long trade at 50000 with 5%/2% gives 52500.00/49000.00; a short trade at 3000 with 10%/5% gives 2700.00/3150.00 |
| Rounding.RoundCents | binance_helper.py:116-120 | the rounded price is a whole number of hundredths, within half a hundredth of the input |
| Rounding.RoundCentsFixesCents | binance_helper.py:116-120 | rounding leaves a whole number of hundredths unchanged |
| Rounding.RoundCentsMonotone | binance_helper.py:116-120 | rounding preserves order |
| Rounding.RoundCentsNearest | binance_helper.py:116-120 | no whole number of hundredths lies closer to the input than the rounded value |
| Rounding.RoundCentsTieIsEven | binance_helper.py:116-120 | an exact half is rounded to an even number of hundredths |
| Json.ToFloat | binance_helper.py:111-112 | ints and floats convert to their values, booleans to 1 and 0, strings exactly when they parse as a decimal literal and then to the parsed value; None, lists and dicts raise |
| Json.ParseDecimalWithPoint | binance_helper.py:111-112 | `float` of a digit string with a point is its whole part plus its fraction |
| Json.ParseDecimalInteger | binance_helper.py:111-112 | `float` of a digit string is the integer it denotes |
| Json.ParseUnsignedBounds | binance_helper.py:111-112 | a parsed literal lies between its whole part and the next integer |
| Json.Index | binance_helper.py:101-102 | `data[key]` succeeds exactly when the key is present; otherwise it raises KeyError with message `'key'` |
| BinanceHelper.Place | binance_helper.py:47-68 | a placer makes at most one call, none exactly when the id draw failed; it succeeds exactly when an id was drawn and the exchange accepted the order; a failed draw reports the id-failure message; a drawn id has the generated shape |
| BinanceHelper.PlaceSendsOneOrder | binance_helper.py:47-68 | a failed id makes no call and returns the id-failure message; otherwise exactly one order goes out with the kind's type, the closing side, the trigger price as stopPrice, amount=qty, closePosition, GTC and the fresh id; the result is the order id, or the failure's message, and the placer never raises |
| BinanceHelper.Bot.PlaceConditional | binance_helper.py:72-93 | result, appended exchange calls and new `clientId` are those of `Place` |
| BinanceHelper.Bot.PlaceStopMarket | binance_helper.py:45-68 | the placer with kind stop-loss, so type STOP_MARKET |
| BinanceHelper.Bot.PlaceTakeProfitMarket | binance_helper.py:70-93 | the placer with kind take-profit, so type TAKE_PROFIT_MARKET |
| BinanceHelper.Merge | binance_helper.py:125-134 | the result is an error iff a leg failed; a stop-loss failure gives "Stop Market Error: …" whatever the take-profit did; "Take Profit Error: …" comes only after a successful stop-loss; success carries both leg results |
| BinanceHelper.LegErrorsAreDistinct | binance_helper.py:126-128 | a stop-loss error message never equals a take-profit error message |
| BinanceHelper.Fraction | binance_helper.py:111-112 | the conversion succeeds exactly when the key is present and `float()` accepts its value, and the fraction times 100 is that float; a missing key raises KeyError with the key's name |
| BinanceHelper.RunTrade | binance_helper.py:95-140 | a run makes at most six calls; it acknowledges without orders exactly when the leverage is set, side and mode are present and the mode is not "Both"; a success with both legs happens only for a run that reached the placement |
| BinanceHelper.EarlyFailureAborts | binance_helper.py:98-106 | a missing `leverage` or `symbol` key, or a failure when loading markets, looking up the market or setting the leverage, ends the run with that exact message and the calls made so far; no price is fetched and no order is placed |
| BinanceHelper.LateFailureAborts | binance_helper.py:108-122 | after the leverage is set, a missing side or mode, a percentage that does not convert, a failed price fetch or a missing quantity ends the run with that message; the price fetch is the last call when it fails, and no order is placed |
| BinanceHelper.OrdersOnlyAtPlacement | binance_helper.py:110-123 | an order is sent only by a run that got through every step before the placement |
| BinanceHelper.LeverageBeforeTrading | binance_helper.py:99-113 | every price fetch or order comes after load_markets, the market lookup and the leverage call (with the market id and the leverage) |
| BinanceHelper.OtherModePlacesNothing | binance_helper.py:110-136 | outside mode "Both" there is no price fetch and no order, and once the leverage is set the result is "Trade executed successfully" |
| BinanceHelper.StopLossThenTakeProfit | binance_helper.py:113-123 | under "Both" the price fetch is followed by the stop-loss order and then the take-profit order, carrying the rounded bracket prices; nothing follows them, and the last id generated is the take-profit's |
| BinanceHelper.TakeProfitAttemptedAfterStopFailure | binance_helper.py:122-126 | the take-profit order is placed even when the stop-loss placement failed, and the run then reports the stop-loss error |
| BinanceHelper.PlacementResult | binance_helper.py:122-134 | the error precedence holds at run level, and the run returns both order ids exactly when both ids were generated and both orders were accepted |
| BinanceHelper.RunExample | binance_helper.py:95-134 | a whole run on a concrete long request: leverage call with the market id, SELL exits at 49000 and 52500, and both order ids returned |
| BinanceHelper.Bot.Run | binance_helper.py:95-140 | the result, the appended exchange calls and the new `clientId` are those of `RunTrade` |
| BinanceHelper.Bot.constructor | binance_helper.py:8-19 | a fresh exchange holding the credentials, in sandbox mode iff testnet is truthy, with no calls made and no client id yet |
| BinanceHelper.Bot.FetchOrderStatus | binance_helper.py:36-43 | one order lookup is logged; the result is the order's status, or the failure's message |
| Json.Subscript | app.py:59-61 | `v[key]` succeeds exactly on a dict that has the key, and then gives that entry |
| Json.SetItem | app.py:29-31 | item assignment succeeds exactly on a dict; the key is set and every other entry is kept |
| App.SetCredentials | app.py:29-31 | the merge succeeds exactly when `EXCHANGES/BINANCE-FUTURES` is a dict |
| App.SetCredentialsStores | app.py:29-31 | after the merge, API_KEY, API_SECRET and TESTNET under the section hold the given values |
| App.SetCredentialsKeepsOtherEntries | app.py:28-35 | every entry of the config on a path unrelated to those three fields, at any depth, is unchanged |
| App.ReadCredentials | app.py:59-61 | the credentials are read exactly when all three paths under `EXCHANGES/BINANCE-FUTURES` exist, and they are the entries found there |
| App.ReadBackStoredCredentials | app.py:59-61 | the trade endpoint reads back exactly the credentials a successful update stored |
| App.TestnetOf | app.py:19 | the testnet flag is the request's value when there is one and False otherwise |
| App.HasCredentials | app.py:17-21 | the credentials pass exactly when `apiKey` and `apiSecret` are both present and truthy (an absent one counts as falsy) |
| App.UpdateConfig | app.py:13-39 | 400 "API key and secret are required" exactly when apiKey or apiSecret is absent or falsy, with nothing written; 200 exactly when the config has the section and the write succeeds; a failed read, a config without the section and a failed write each give 500 with error status and that exception's message; what is written is the merged config |
| App.CredentialCheckFirst | app.py:21-26 | with bad credentials the response depends neither on the config file nor on the write |
| App.UpdateConfigWrites | app.py:28-35 | a valid update writes the key, the secret and the testnet flag (False by default) and keeps every other entry |
| App.MissingParams | app.py:49-50 | a key is in the list exactly when it is required and absent from the request |
| App.MissingParamsInOrder | app.py:50 | the missing keys keep the order of the required list |
| App.Join | app.py:53 | `", ".join`: the names in order, one separator between each two, so the length is the names' total length plus one separator per gap; the first name starts it and the last ends it |
| App.MissingMessage | app.py:53 | the message starts with "Missing parameters: " and, for one missing name, is that prefix followed by the name |
| App.ValidRequestHasKeys | app.py:49-53 | a request that passes validation holds every key the bot reads |
| App.ExecuteTrade | app.py:43-71 | 400 "Missing parameters: " plus the names joined by ", " exactly when a key is missing, before the config is read and with no bot created; config or bot-construction failures give 500 with the exception text; otherwise 200 with the run's result unchanged, and the calls are those of the run |

## Left out

- The exchange library (`load_markets`, `market`, `fapiprivate_post_leverage`, `fetch_ticker`, `create_order`, `fetch_order`, `set_sandbox_mode`) is foreign code. It is the `Gateway` class. Every call except `set_sandbox_mode` is logged and answers with a supplied response. `set_sandbox_mode` only sets the `sandbox` flag: it is not logged and cannot fail there, and a failure while building the client, including that call, is the `init` input of `ExecuteTrade`. Its `defaultType: future` option is not modelled.
- A ticker without a `last` price (the TypeError that follows) an order response without an `id`, and a `fetch_order` response without a `status` (the KeyError that follows) are folded into a failed response of that call.
- The entropy of `random.choices` is not modelled. The suffix is an input under a precondition, so the uniqueness of ids is statistical and is not stated.
- Binary floating point is not modelled. Prices, percentages and `float()` results are exact reals.
- Rounding.RoundCents rounds the exact real half to even. Python rounds the exact value of the binary float, so results can differ near ties (for example `round(2.675, 2)` is 2.67 in Python).
- Json.ToFloat: strings parse only as an optional sign, ASCII digits and an optional point with ASCII digits. Python's `float()` also accepts non-ASCII Unicode decimal digits (full-width or Arabic-Indic digits, for example), surrounding whitespace, `_` separators, exponents, `inf` and `nan`, which the model treats as conversion failures. The ValueError text quotes the string without Python's repr escaping. JSON `NaN`/`Infinity` constants are not modelled.
- TypeError texts follow CPython 3.11 wording. Other interpreter versions word them differently.
- Flask routing, `jsonify`, CORS and `app.run` are not modelled. A request body that is not a JSON object (where `request.json` is None or a list) is not modelled: the body is always a dict.
- Reading and writing `config.json` is not modelled. The file content and the outcome of the write are inputs. The state of the file after a failed write (it may be truncated or partly written) is not modelled.
- Building the exchange client can fail. That failure is the `init` input of `ExecuteTrade` ("Failed to initialize Bot: …").
- Logging is not modelled.
- Concurrency between requests is not modelled. Each request builds its own bot and gateway.
