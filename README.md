# SHT_MON price monitor and tower viewer, modelled in Dafny

SHT_MON polls three Quickswap Algebra V3 pools that pair the SHT token with
USDC, ETH and POL. For each pool it turns the pool's `sqrtPriceX96` (a
Q64.96 fixed-point square root of the price) into a price, scales it by
the difference of the two tokens' ERC-20 `decimals()`, and appends one
JSON record to `data/price_log.jsonl`. The same cycle also records a USD
reference price for ETH or POL, with `-0.99` stored when the price feed
gave none. A browser page reads the log back, keeps the latest record of
each pair and sizes one 3D tower per pair from it.

The model has three modules:

- `Observation` (`observation.dfy`): the log record. The two price fields
  are named after the quote symbol, so they are a `map<string, real>`.
- `PriceChecker` (`price_checker.dfy`): `price_checker.py`. It holds the
  fallback of the reference prices and the exact normalisation in `real`
  arithmetic. It also holds the case-insensitive orientation check, the
  decision to append a record or skip, and the record itself. The
  append-only log is a class `PriceLog` with a `seq<Record>` field. Its
  methods append one pool's record, or run one cycle over the three pools.
- `ThreeScene` (`three_scene.dfy`): the logic of `loadScene` in
  `three-scene.js`. `LatestEntries` is the loop that fills the
  `latestEntries` map. The other parts are the first-truthy price choice
  and the height and USD-liquidity branches. Lemmas connect the viewer to
  the records the monitor writes.

Chain reads, feed answers, the environment and the clock are inputs (see
"Left out").

Where the design description and the code differ, the model follows the
code:

- If neither pooled token matches SHT, the code logs a warning and still
  writes the record. The design says this observation is skipped.
- The code stores the adjusted price under `price_sht_per_<q>` and its
  reciprocal under `price_<q>_per_sht`, whichever token is SHT. The design
  lets the orientation decide which price is the direct one.
  `RecordIgnoresOrientation` states what the code does.
- The code leaves both `eth_usd` and `pol_usd` null in the SHT/USDC record.
  The design says exactly one of them is set in every record.
- The design says the `-0.99` sentinel must never be read as a price. The
  viewer tests it for truthiness and so multiplies by it
  (`SentinelIsMultiplier`).

## Model

| member | source | states |
|---|---|---|
| `PriceChecker.UsdOrFallback` | price_checker.py:47-54 | a reference price is the feed's value whenever there is one (0 included); it equals the sentinel only when the feed gave nothing or gave exactly -0.99 |
| `PriceChecker.LiveUsdPrices` | price_checker.py:23-54 | each returned price is the fallback of its own feed alone, so one failed feed never forces the other to fall back, and neither result is ever absent |
| `PriceChecker.Pow10Nat` | price_checker.py:81 | 10^n is at least 1, and at least 10 for n > 0 |
| `PriceChecker.Pow10` | price_checker.py:81 | `10 ** k` is positive: the exact integer power for k >= 0, and the reciprocal of 10^-k for k < 0 |
| `PriceChecker.Pow10Negate` | price_checker.py:81 | the adjustments for d and -d cancel: 10^k * 10^-k = 1 |
| `PriceChecker.RawPrice` | price_checker.py:71-72 | (sqrtPriceX96 / 2^96)^2 is non-negative; it is zero exactly when sqrtPriceX96 is zero; times 2^192 it gives sqrtPriceX96^2 exactly |
| `PriceChecker.AdjustedPrice` | price_checker.py:71-82 | the adjusted price is non-negative and zero exactly when sqrtPriceX96 is zero; for equal decimals the factor is exactly 1; scaling back by 10^(decimals1 - decimals0) gives the raw price |
| `PriceChecker.UnitSqrtPrice` | price_checker.py:71-82 | sqrtPriceX96 = 2^96 with decimals 18 and 18 gives price 1 and reciprocal 1 |
| `PriceChecker.EighteenOverSixDecimals` | price_checker.py:80-82 | a raw price of 1 with decimals 18 and 6 is adjusted to 10^12 |
| `PriceChecker.SixOverEighteenDecimals` | price_checker.py:71-82 | sqrtPriceX96 = 2 * 2^96 with decimals 6 and 18 gives raw price 4, adjusted price 4 * 10^-12 and reciprocal 2.5 * 10^11 |
| `PriceChecker.Lower` | price_checker.py:91 | `lower()` keeps the length and lower-cases each character in place |
| `PriceChecker.LowerIdempotent` | price_checker.py:91-94 | lower-casing twice is the same as lower-casing once |
| `PriceChecker.OrientationIgnoresCase` | price_checker.py:90-99 | the orientation depends only on the lower-cased addresses, and token0 is checked first, so it wins when both tokens match SHT |
| `PriceChecker.Observe` | price_checker.py:56-121 | nothing is appended when the pool variable is unset or empty (decided before any read), when a required read raises, or when sqrtPriceX96 is 0 (the reciprocal divides by zero); otherwise the record has the label, clock, checksum address, both decimals and the exact integer sqrtPriceX96; liquidity is null when its read failed; the price fields are the two names built from the lower-cased quote, and their values are reciprocal; eth_usd is set only for quote "ETH" and pol_usd only for "POL" |
| `PriceChecker.RecordIgnoresOrientation` | price_checker.py:90-115 | whether a record is written, and every field of it, is the same whichever token is SHT, the "neither matches" case included |
| `PriceChecker.PoolRecord` | price_checker.py:101-115 | a record for one of the three configured pools carries its label, the two price fields named after its quote, the reciprocal of the adjusted price under `price_<q>_per_sht`, and only its own reference price |
| `PriceChecker.Emitted` | price_checker.py:117-121 | one call produces exactly one log line when it appends and none otherwise |
| `PriceChecker.CycleShape` | price_checker.py:123-128 | one cycle writes at most three records, one per pool, in the order USDC, ETH, POL; a pool's record is present exactly when its call appends; every record carries the cycle's single eth_usd or pol_usd for its own quote only |
| `PriceChecker.PriceLog.FetchPriceFromPool` | price_checker.py:56-121 | the log becomes the old log plus the call's record or nothing; earlier records are unchanged |
| `PriceChecker.PriceLog.GetTokenPriceFromPool` | price_checker.py:123-128 | the log grows by exactly the cycle's records, evaluated in the order USDC, ETH, POL with one pair of fallback-applied reference prices |
| `ThreeScene.LatestEntries` | three-scene.js:58-63 | the keys of the result are exactly the pairs in the lines; each kept entry is a line of that pair whose timestamp no line of the pair exceeds, and every earlier line of the pair is strictly earlier, so on ties the first seen is kept |
| `ThreeScene.FirstLatestUnique` | three-scene.js:59-62 | at most one line fits that description, so the reduction's result is determined by the lines |
| `ThreeScene.ChoosePrice` | three-scene.js:67 | the chosen price is truthy exactly when some candidate is; if so, it is the first truthy one among `price_usdc_per_sht`, `price_eth_per_sht` and `price_pol_per_sht`; otherwise it is the last candidate, whatever that is |
| `ThreeScene.TowerOf` | three-scene.js:66-94 | an entry is skipped exactly when its pair is unknown, its liquidity is null, or no price candidate is truthy and the last one is absent |
| `ThreeScene.LoadTower` | three-scene.js:65-94 | the reassigned `height` and `liquidityInUSD`, starting from 5 and 0, give the tower `TowerOf` describes |
| `ThreeScene.SentinelIsMultiplier` | three-scene.js:72-94 | for SHT/ETH the -0.99 sentinel is truthy and is used as a multiplier, so a positive price and liquidity give a negative height and a negative USD liquidity |
| `ThreeScene.PerShtKeys` | price_checker.py:104-105 | for the quotes USDC, ETH and POL the field names are `price_sht_per_<q>` and `price_<q>_per_sht` with q in lower case |
| `ThreeScene.PoolRecordTower` | three-scene.js:66-94 | for a record written for pool p, the chosen price is the `price_<q>_per_sht` field; the tower is skipped exactly when liquidity is null; the height is the price for USDC, or price times the reference price when that is non-zero (5 otherwise); the liquidity is liquidity / 10^6 for USDC, or liquidity / 10^18 times the reference price (0 otherwise) |
| `ThreeScene.ObservedTower` | three-scene.js:66-94 | for any record the monitor appends, the viewer's price is 1 / adjusted price, and its tower follows the rule above with the cycle's reference prices |

## Left out

- `monitor.py`: the endless poll loop, the 60-second sleep, the RPC connectivity check and the `symbol()`/`decimals()` reads at startup. These are scheduling and I/O.
- `config.py`: environment loading, Web3 provider construction, checksum conversion and ABI loading. These are library calls. The checksum conversion of a pool address is an input (`PoolReads.checksumAddress`, None when it raises).
- The CoinGecko requests, `raise_for_status` and JSON parsing (price_checker.py:28-45). Each becomes an optional input value, with None for a failed request or a missing `usd` entry.
- The Web3 contract calls `token0`, `token1`, `globalState`, `decimals` and `liquidity`. Their results are optional inputs in `PoolReads`, so the order of those calls is not modelled.
- Logging, `datetime.utcnow().isoformat()` formatting and `json.dumps`. The timestamp is an integer (`PoolReads.clock`). A failure to open or write the log file, which the handler at price_checker.py:120-121 would also swallow, is not modelled.
- IEEE floating point in Python and JavaScript. Arithmetic is exact `real`, so NaN, infinity, rounding, and a tiny price underflowing to 0.0 (which would also make `1 / adjusted_price` raise) are not modelled.
- `str.lower()` is modelled for ASCII letters only, which covers hex addresses and the three quote symbols.
- In the viewer: fetching and splitting the file, `JSON.parse`, `new Date(...)` parsing, and field values that are not numbers. Timestamps are compared as integers.
- In the viewer: pair names that are inherited `Object` property names (such as `constructor`), which `pairMap[...]` would find. `KnownPair` is exactly the three listed pairs.
- In the viewer: the `Object.values(latestEntries).forEach` iteration is modelled by its body, `LoadTower`, applied to one entry. The rest of that body is drawing: the `Math.log10` radius (three-scene.js:96), THREE.js objects, labels, tower removal (45-47), animation and event handlers.
