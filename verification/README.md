# Binance public-API client, modelled in Dafny

A model of the request layer of a small Python client for the Binance REST
market-data API. Two parts of the client carry logic of their own:

- `interval_to_milliseconds` turns an interval token such as `15m`, `12h` or `1w`
  into milliseconds. The last character is the unit (`m`, `h`, `d`, `w`,
  case-sensitive). Everything before it is an integer magnitude read with `int()`.
  An unknown unit or an unreadable magnitude gives `None`.
- Each public endpoint function (`get_order_book`, `get_recent_trades`,
  `get_older_trades`, `get_agg_trades`, `get_candlesticks`, `get_avg_price`,
  `get_24_hr_ticker_price_change`, `get_latest_price`, `get_top_of_book`, plus
  `get_status_code` and `get_exchange_info`) builds the same things before it calls
  `requests.get`: a fixed path, the optional `X-MBX-APIKEY` headers dict, and a
  params dict in a fixed key order (or `params=None`) with its defaults filled in. Every response
  other than 200 raises `BinanceException`, whose `code`/`msg` come from the
  body only when the body is truthy.

The modules:

| file | module | what it holds |
|---|---|---|
| wrappers.dfy | `Wrappers` | `Option` (Python's `None`) and `Result` (value or raised exception) |
| decimal.dfy | `Decimal` | `str(n)` and the ASCII part of `int(text)`, with round-trip lemmas |
| utilities.dfy | `Utilities` | `interval_to_milliseconds` and its unit lemmas |
| python.dfy | `Python` | scalar Python values, the decoded JSON body, truthiness, `str()` |
| exceptions.dfy | `Exceptions` | `BinanceException` and the status-200 check |
| public_api.dfy | `PublicApi` | `Request`, one builder per endpoint, `Call`, `Normalize`, and the inverse `Decode` |
| catalog.dfy | `Catalog` | weights and rules from the doc-comments, which the code never enforces |

Each builder is a pure function from the caller's arguments to a `Request`.
Its partner is `Decode`, which reads a request back into the call that built it.
The two lemmas `DecodeBuild` and `BuildDecode` show that a request keeps
exactly the information listed in `Normalize`. It drops a symbol's Python type
(the f-string writes `5` and `"5"` the same), which defaults were written out,
keyword arguments the endpoint never reads, and whether an optional keyword
was sent as `None` or left out.

The model follows the code in these places:

- Absent optional parameters are kept as `None` entries in the params dict, not
  omitted. What `requests` then does with a `None` value is library behaviour and
  is not modelled.
- Only status 200 counts as success. A 204 raises like a 404 does.
- Nothing checks the aggregated-trades one-hour window. `Catalog` states it as a
  separate predicate and shows that the builder lets a two-hour window through.
- The 24-hour ticker and average price always send `symbol`. A `None` symbol is
  sent as the string `"None"`, so the ticker's 40-weight form is never produced.
- There is no request signer, rate-limit tracker or status-classification table
  in the code, so the model has none.

## Model

| member | source | states |
|---|---|---|
| Utilities.IntervalToMilliseconds | app/adapters/utilities.py:47-70 | defined for every non-empty token (an empty one raises at `interval[-1]`); every value it returns is a whole number of minutes (a multiple of 60000) |
| Utilities.IntervalOfFormatted | app/adapters/utilities.py:57-67 | a token written as an integer followed by a known unit gives that integer times the unit's seconds times 1000 |
| Utilities.IntervalAcceptedIff | app/adapters/utilities.py:64-70 | a token is accepted exactly when its last character is in the unit table and the rest is an integer literal; a bare unit, an unknown unit and a non-numeric magnitude all give `None` |
| Utilities.SecondsPerUnit | app/adapters/utilities.py:57-62 | the unit table has exactly the four keys `m`, `h`, `d`, `w`, and each entry is a positive whole number of minutes |
| Utilities.IntervalCanonical | app/adapters/utilities.py:64-67 | an accepted token gives the same result as the token whose magnitude is its integer value written back by `str()` |
| Utilities.SameMagnitudeValue | app/adapters/utilities.py:64-67 | two magnitudes that `int()` reads to the same result give the same interval with any unit |
| Utilities.IntervalLeadingZero | app/adapters/utilities.py:67 | a zero in front of the digits, after an optional sign, does not change the interval (`05m` is `5m`, `-05m` is `-5m`) |
| Utilities.IntervalLeadingPlus | app/adapters/utilities.py:67 | a `+` in front of the digits does not change the interval (`+5m` is `5m`) |
| Utilities.RejectedIntervals | app/adapters/utilities.py:52-53 | an unknown unit (`5q`, `xyz`) and a bare unit with no magnitude (`m`) give `None` |
| Utilities.HourIsSixtyMinutes | app/adapters/utilities.py:57-59 | `n` followed by `h` and `60n` followed by `m` give the same, defined, value |
| Utilities.DayIsTwentyFourHours | app/adapters/utilities.py:59-60 | `n` followed by `d` and `24n` followed by `h` give the same, defined, value |
| Utilities.WeekIsSevenDays | app/adapters/utilities.py:60-61 | `n` followed by `w` and `7n` followed by `d` give the same, defined, value |
| Utilities.MinuteIntervals | app/adapters/utilities.py:49 | the docstring's minute tokens convert to their lengths: `1m`=60000, `15m`=900000, `30m`=1800000 |
| Utilities.HourIntervals | app/adapters/utilities.py:49 | the docstring's hour tokens convert to their lengths: `1h`=3600000, `12h`=43200000 |
| Utilities.DayAndWeekIntervals | app/adapters/utilities.py:49 | the docstring's day and week tokens convert to their lengths: `3d`=259200000, `1w`=604800000 |
| Decimal.ParseIntegerOfIntToString | app/adapters/utilities.py:67 | reading back the decimal text of any integer, signed or not, gives that integer |
| Decimal.ParseInteger | app/adapters/utilities.py:67-68 | the magnitude parse succeeds exactly on an optional `+`/`-` followed by one or more ASCII digits; anything else is the `ValueError` that gives `None` |
| Decimal.DigitsValueLeadingZero | app/adapters/utilities.py:67 | a zero in front of a digit run leaves its value unchanged |
| Decimal.ParseIntegerLeadingZero | app/adapters/utilities.py:67 | `int()` reads a digit run with an extra leading zero, after any sign, as the same number |
| Decimal.ParseIntegerPlus | app/adapters/utilities.py:67 | `int()` reads a digit run the same with or without a leading `+` |
| Decimal.DigitsValueOfNatToString | app/adapters/binance_public_api.py:33 | the decimal text written for a natural number reads back as that number |
| Decimal.NatToStringOfDigitsValue | app/adapters/utilities.py:67 | a digit run without a superfluous leading zero is exactly the text written for its value |
| Decimal.NatToString | app/adapters/binance_public_api.py:33 | the text written for a number is a non-empty digit run with no leading zero, starting with `0` only for zero |
| Python.ToStr | app/adapters/binance_public_api.py:33 | `str()` leaves a string unchanged, writes `None` for `None`, `True`/`False` for booleans, and writes an integer as text that reads back as that integer |
| Python.Truthy | app/adapters/binance_public_api.py:27 | a body is falsy exactly when it is `None`, `False`, `0`, the empty string, the empty list or the empty dict |
| Exceptions.NewBinanceException | app/adapters/binance_public_api.py:23-37 | `status_code` is kept unchanged; a truthy body supplies `code` and `msg` (and must then be a dict holding both); a falsy one leaves both `None`; the message is the status, the code in brackets and the text, separated by spaces; its first word reads back as the status code and, when the code holds no `]`, the bracketed part reads back as the code (as the integer itself for an integer code) |
| Exceptions.FalsyBodyMessage | app/adapters/binance_public_api.py:30-33 | with a falsy body the message is the status followed by ` [None] None` |
| Exceptions.InvalidSymbolMessage | app/adapters/binance_public_api.py:27-33 | status 400 with body `{"code": -1121, "msg": "Invalid symbol."}` gives the message `400 [-1121] Invalid symbol.` |
| Exceptions.CheckResponse | app/adapters/binance_public_api.py:111-115 | the body comes back exactly when the status is 200; any other status raises exactly the exception built from that status and body, whose message starts with that status |
| PublicApi.ServerTime | app/adapters/binance_public_api.py:40-50 | path `/api/v1/time`, no params, no headers |
| PublicApi.ExchangeInfo | app/adapters/binance_public_api.py:65-73 | path `/api/v3/exchangeInfo`, no params, no headers |
| PublicApi.OrderBook | app/adapters/binance_public_api.py:87-110 | path `/api/v1/depth`; keys exactly `symbol`, `limit` in that order; the symbol as text; the limit as given, 100 when omitted, unchecked |
| PublicApi.RecentTrades | app/adapters/binance_public_api.py:123-140 | path `/api/v3/trades`; keys exactly `symbol`, `limit`; limit 500 when omitted |
| PublicApi.OlderTrades | app/adapters/binance_public_api.py:152-176 | path `/api/v3/historicalTrades`; keys exactly `symbol`, `limit`, `fromId`; `fromId` is the keyword argument, `None` exactly when it was not sent with a value |
| PublicApi.AggTrades | app/adapters/binance_public_api.py:188-231 | path `/api/v3/aggTrades`; keys exactly `symbol`, `limit`, `fromId`, `startTime`, `endTime`; each optional is `None` exactly when not sent with a value; no combination checked |
| PublicApi.Candlesticks | app/adapters/binance_public_api.py:243-289 | path `/api/v3/klines`; keys exactly `symbol`, `interval`, `limit`, `startTime`, `endTime`; interval `1h` and limit 500 (the function's own default) when omitted; absent times are `None` |
| PublicApi.AvgPrice | app/adapters/binance_public_api.py:301-312 | path `/api/v3/avgPrice`; always exactly the key `symbol` |
| PublicApi.Ticker24hr | app/adapters/binance_public_api.py:324-336 | path `/api/v3/ticker/24hr`; always exactly the key `symbol`, even for a `None` symbol |
| PublicApi.OptionalSymbolRequest | app/adapters/binance_public_api.py:356-361 | no params at all exactly when the symbol is `None`; otherwise exactly the key `symbol` |
| PublicApi.LatestPrice | app/adapters/binance_public_api.py:348-364 | path `/api/v3/ticker/price` with the API-key headers; no params exactly when the symbol is `None`, otherwise exactly the entry `symbol` holding the symbol as text |
| PublicApi.TopOfBook | app/adapters/binance_public_api.py:376-392 | path `/api/v3/ticker/bookTicker` with the API-key headers; no params exactly when the symbol is `None`, otherwise exactly the entry `symbol` holding the symbol as text |
| PublicApi.DecodeBuild | app/adapters/binance_public_api.py:87-392 | every request an endpoint function builds reads back to the caller's call, normalised |
| PublicApi.BuildDecode | app/adapters/binance_public_api.py:87-392 | every request that reads back at all is the one its decoded call builds |
| PublicApi.SameRequestIffSameNormalForm | app/adapters/binance_public_api.py:87-392 | two calls send the same request if and only if they are equal after normalising |
| Catalog.DepthWeight | app/adapters/binance_public_api.py:90-96 | a weight is declared exactly for the limits 5, 10, 20, 50, 100, 500, 1000, 5000; it is 1 up to 100 and the limit divided by 100 above (5, 10, 50) |
| Catalog.DeclaredWeight | app/adapters/binance_public_api.py:43-379 | every declared weight is positive |
| Catalog.BuiltRequestWeight | app/adapters/binance_public_api.py:43-389 | the weight of what each endpoint sends: undeclared exactly for average price and for order books with an invalid limit; 5 for older trades; always 1 for the 24-hour ticker; 2 for latest price and top of book exactly when called with `None`; the depth table's weight for an order book with a valid limit (5, 10, 50 for 500, 1000, 5000); 1 otherwise |
| Catalog.DefaultOrderBookWeight | app/adapters/binance_public_api.py:87-96 | the default order book costs 1 |
| Catalog.AggTradesWindowValid | app/adapters/binance_public_api.py:197 | the window rule fails only when both times are sent as integers; a window of exactly one hour (0 to 3600000 ms) breaks it, since the gap must be less than an hour |
| Catalog.AggTradesWindowNeedsBothTimes | app/adapters/binance_public_api.py:197 | the window rule holds of any aggregated-trades request that lacks one of the two times |
| Catalog.AggTradesWindowNotEnforced | app/adapters/binance_public_api.py:218-228 | a request with a two-hour window is built unchanged and breaks the rule |
| Catalog.KlineIntervalsConvertible | app/adapters/binance_public_api.py:246-247 | the interval utility converts every candlestick token except the month `1M`, which gives `None`; the documentation's run-together `30m1h`, taken literally, also gives `None` |

## Left out

- `obtain_env_variable` (app/adapters/utilities.py:5-20, repeated in app/adapters/binance_private_api.py): it reads the environment. The API key it returns appears in the model only as the presence of the headers dict.
- `date_to_milliseconds`: it depends on the `dateparser` and `pytz` libraries and on floating-point seconds.
- The network call, `r.json()` decoding and the `json.dumps(..., indent=2)` text that each function returns. `CheckResponse` returns the decoded body instead.
- `urljoin(BASE_URL, PATH)`: a library function. A request carries its path only.
- The clock difference in `get_status_code`: it reads the wall clock.
- The module-level `get_exchange_info()` call and `print` that run on import: these are I/O.
- How `requests` encodes the params dict into a query string, including whether it drops `None` values.
- Decimal.ParseInteger, Decimal.ParseIntegerOfIntToString, Decimal.NatToString, Decimal.ParseIntegerLeadingZero, Decimal.ParseIntegerPlus, Utilities.IntervalAcceptedIff, Utilities.IntervalLeadingZero, Utilities.IntervalLeadingPlus: Python's limit on integer/text conversion (4300 digits by default since Python 3.11 and the 3.7-3.10 security releases) is not modelled. Past it `int()` raises `ValueError`, which utilities.py:68 turns into `None`, and `str()` raises as well. The model converts numbers of any length.
- Python `int()` leniency: surrounding whitespace, `_` between digits and non-ASCII digits are all rejected by the model, although `int()` accepts them.
- `str()` of floats and of nested JSON values: a body's `code`/`msg` and every argument are modelled as `None`, a bool, an int or a string.
- Exceptions other than `BinanceException`: a truthy body that is not a dict holding `code` and `msg` raises `KeyError` or `TypeError` in the source. `NewBinanceException` requires a readable body instead.
- app/adapters/binance_private_api.py: its `BinanceException` is the same class as the public one and is modelled once. It holds no signing code.
- Request signing, rate-limit tracking and a status-classification table: none of these exist in the code.
