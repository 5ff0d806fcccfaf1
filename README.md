# CoinGecko ticker normalisation

A Dafny model of how the CoinGecko exchange adapter turns market data into tickers. The market data is the list that CoinGecko's `coins/markets` endpoint returns. The result is the adapter's common ticker table, a map from canonical trading-pair symbol to a ticker record. Three pieces of `exchange.py` are modelled:

- **`TickerInfo` and its `__dict__` projection.** The record has three fields: last price, base volume and quote volume. Its projection is the map from field name to value that the table actually stores.
- **Symbol canonicalisation (`_convert_symbol_to_ccxt`).** It takes a base-asset code such as `eth`, upper-cases it and appends the fixed quote suffix `/USD`, giving `ETH/USD`.
- **`normalize_data`.** It walks the raw items and fills a fresh dictionary, keyed by canonical symbol. A later item with the same symbol overwrites an earlier one. A missing key, or a symbol that is not a string, raises, and the whole call fails without returning a table.

Everything is in one module, `Exchange` (`exchange.dfy`):

- Raw JSON values are `Json<V>`: either a string or an opaque value of type `V` (a number, null, ...). Prices and volumes are only copied, never computed on, so nothing in the model depends on `V`.
- A raw item is a `map<string, Json<V>>`.
- The Python exceptions become the `Error` datatype inside a `Result`: `KeyError(key)` for `item[key]` on a missing key, and `AttributeError("upper")` for `.upper()` on a value that is not a string.
- `Normalize` is the specification of `normalize_data`, written as a left fold of `Step` over the list. `NormalizeData` is the loop itself: a `for` loop that updates a `map` variable and is proved equal to `Normalize`.

What the code does not do:
- The code raises Python's `KeyError`/`AttributeError`, not a dedicated normalisation error.
- The code accepts any base code, including an empty one or one that contains `/`. There is no symbol-format error. `ConvertSymbolSeparator` states the single-`/` shape only for base codes without `/`.
- The code does not check that prices and volumes are finite and non-negative. It copies them as they are.

## Model

| member | source | states |
|---|---|---|
| `Exchange.TickerInfo.AsDict` | exchange.py:12-17 | the projection has exactly the keys `last`, `baseVolume`, `quoteVolume`, each bound to the field of the same name |
| `Exchange.DictRoundTrip` | exchange.py:12-17 | the projection loses nothing: reading the three fields back from it gives the original record |
| `Exchange.AsDictInjective` | exchange.py:12-17 | two records have the same projection if and only if they are equal |
| `Exchange.ToUpperChar` | exchange.py:94 | upper-casing a character leaves no lower-case ASCII letter, changes at most the letter's case, and leaves every other character alone |
| `Exchange.Upper` | exchange.py:94 | `str.upper()` keeps the length, upper-cases every character in place, and leaves no lower-case ASCII letter |
| `Exchange.UpperIdempotent` | exchange.py:86 | upper-casing an already upper-cased string changes nothing |
| `Exchange.UpperSame` | exchange.py:94 | two strings have the same upper case if and only if they differ only in the case of ASCII letters |
| `Exchange.ConvertSymbol` | exchange.py:93-94 | the canonical symbol is 4 characters longer than the base code and ends in the quote suffix `/USD` |
| `Exchange.ConvertSymbolCanonical` | exchange.py:93-94 | the canonical symbol has no lower-case ASCII letter, and before the suffix it spells the base code up to letter case |
| `Exchange.ConvertSymbolSame` | exchange.py:93-94 | two base codes give the same canonical symbol if and only if they differ only in letter case |
| `Exchange.ConvertSymbolUpperFirst` | exchange.py:86 | upper-casing the symbol before converting it, as `normalize_data` does, gives the same canonical symbol as converting it directly |
| `Exchange.ConvertSymbolSeparator` | exchange.py:93-94 | for a base code without `/`, the canonical symbol contains exactly one `/`, just before the quote currency |
| `Exchange.Projection` | exchange.py:87-90 | what is stored for an item has exactly the three ticker keys: `last` is the item's `current_price`, `baseVolume` its `total_volume`, `quoteVolume` its `market_cap` |
| `Exchange.ItemError` | exchange.py:86-89 | an item that cannot be normalised raises a `KeyError` naming a key that is really missing; it raises `AttributeError("upper")` exactly when `symbol` is present but not a string, whatever later keys are missing |
| `Exchange.ItemErrorOrder` | exchange.py:86-89 | the key a `KeyError` names is the first missing one in reading order: `symbol`, `current_price`, `total_volume`, `market_cap`; a key after `symbol` is reported only when the symbol is a string |
| `Exchange.Normalize` | exchange.py:83-91 | a successful call never yields more table entries than there are items |
| `Exchange.NormalizeOk` | exchange.py:85-90 | the call succeeds if and only if every item has all four keys and a string `symbol` |
| `Exchange.NormalizeFirstError` | exchange.py:85-89 | a failed call reports the error of the first item that cannot be normalised, and every item before it can be |
| `Exchange.NormalizeHasKey` | exchange.py:85-90 | when every item is well formed, every item's canonical symbol is a key of the table |
| `Exchange.NormalizeKeyFrom` | exchange.py:85-90 | every key of the table is the canonical symbol of some item |
| `Exchange.NormalizeKeys` | exchange.py:84-91 | when every item is well formed, the call succeeds, and the keys of the table are exactly the canonical symbols of the items |
| `Exchange.NormalizeLastWins` | exchange.py:85-90 | the entry under a symbol is the projection of the last item with that canonical symbol, so later duplicates overwrite earlier ones |
| `Exchange.NormalizeEmpty` | exchange.py:84-91 | an empty item list gives an empty table |
| `Exchange.NormalizeStops` | exchange.py:85-89 | if an item fails after items that all succeeded, the whole call fails with that item's error, and no partial table is returned |
| `Exchange.NormalizeContinues` | exchange.py:85-90 | a well-formed item after a successful prefix writes its projection under its canonical symbol over the prefix's table |
| `Exchange.NormalizeData` | exchange.py:83-91 | the loop that fills the dictionary item by item returns exactly `Normalize(data)`: the table on success, otherwise the first item's exception |
| `Exchange.EthExample` | exchange.py:83-94 | the item `{symbol: "eth", current_price: 2500.5, total_volume: 120000, market_cap: 300000000}` gives `{"ETH/USD": {last: 2500.5, baseVolume: 120000, quoteVolume: 300000000}}` |
| `Exchange.MissingPriceExample` | exchange.py:86-87 | an item without `current_price` makes the call fail with `KeyError("current_price")` |

## Left out

- `BaseExchange.fetch_data` (exchange.py:23-34): an HTTP GET through `aiohttp` that raises on a non-200 status. This is network I/O, so the raw list is a parameter of the model instead.
- `fetch_tickers` (exchange.py:36-41, 78-81): an async network call followed by `normalize_data`. Only the `normalize_data` half is modelled.
- `load_markets` and `close` (exchange.py:61-71): they have no code. The rate-limit pacing and two-phase loading exist only as docstring prose.
- The base-class methods that raise `NotImplementedError` (exchange.py:44-59): they have no behaviour. The class hierarchy and `BASE_URL` are not modelled, because the CoinGecko adapter keeps no state that its methods update.
- `main`, `asyncio.run` and `json.dumps` (exchange.py:96-101): the event-loop entry point and the printing.
- `normalize_data` on a payload that is not a list of dictionaries (a JSON object, or a list holding strings or numbers): Python would iterate the keys or raise `TypeError`. The model takes a list of JSON objects.
- Floating-point semantics of prices and volumes: they are copied unchanged, so they are an opaque type parameter.
- `Exchange.Upper`: upper-cases only the ASCII letters `a`-`z` and leaves every other character unchanged. Python's `str.upper()` also maps non-ASCII letters, sometimes to several characters (`ß` becomes `SS`).
- `Exchange.ToUpperChar`: the same ASCII-only restriction as `Exchange.Upper`.
- `Exchange.ConvertSymbol`: its length claim (`|s| + 4`) holds for the ASCII model only. Under Python's `str.upper()`, `ß` gives `SS/USD`.
- `Exchange.ConvertSymbolSame`: its "only letter case" claim holds for the ASCII model only. Under Python's `str.upper()`, `ſ` and `s` both give `S/USD`.
