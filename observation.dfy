/** The price-log record: written by the monitor, one JSON object per line,
    and read back by the 3D viewer. */
module Observation {

  /** A value that may be absent: Python's None, JSON's null, JavaScript's
      null or undefined. */
  datatype Option<T> = None | Some(value: T)

  /** One line of the price log.

      The two price fields have names built from the quote symbol
      (`price_sht_per_<q>` and `price_<q>_per_sht`), so they are kept as a
      map from field name to value; every other field has a fixed name.
      `timestamp` is the instant of the observation as an integer. */
  datatype Record = Record(
    timestamp: int,
    pair: string,
    prices: map<string, real>,
    poolAddress: string,
    decimals0: nat,
    decimals1: nat,
    sqrtPriceX96: nat,
    liquidity: Option<int>,
    ethUsd: Option<real>,
    polUsd: Option<real>)

  /** The value of a dynamically named price field, absent when the record
      has no field of that name. */
  function PriceField(r: Record, name: string): Option<real> {
    if name in r.prices then Some(r.prices[name]) else None
  }
}
