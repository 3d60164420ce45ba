/** The monitor's price computation: reference USD prices with their
    fallback, the normalisation of a pool's square-root price, the
    orientation check, the log record, and one polling cycle over the three
    pools. Every chain read and feed answer is an input. */
module PriceChecker {
  import opened Observation

  /** 2^96, the scale of a Q64.96 square-root price. */
  const Q96: nat := 0x1_0000_0000_0000_0000_0000_0000

  /** The value stored for a USD reference price the feed did not give. */
  const Fallback: real := -0.99

  // ---------------------------------------------------------------------
  // Reference USD prices (get_live_usd_prices)
  // ---------------------------------------------------------------------

  /** A reference price after the fallback: the feed's value when it gave
      one (even zero), the sentinel otherwise. */
  function UsdOrFallback(feed: Option<real>): (usd: real)
    ensures feed.Some? ==> usd == feed.value
    ensures usd == Fallback <==> feed == None || feed == Some(Fallback)
  {
    match feed
    case Some(v) => v
    case None => Fallback
  }

  /** The two reference prices of one cycle. `ethFeed` and `polFeed` are what
      the two feed requests produced: None when the request failed or the
      answer had no `usd` entry. */
  method LiveUsdPrices(ethFeed: Option<real>, polFeed: Option<real>)
    returns (ethUsd: real, polUsd: real)
    ensures ethUsd == UsdOrFallback(ethFeed)
    ensures polUsd == UsdOrFallback(polFeed)
  {
    var eth: Option<real> := None;
    var pol: Option<real> := None;
    eth := ethFeed;
    pol := polFeed;
    if eth.None? {
      eth := Some(Fallback);
    }
    if pol.None? {
      pol := Some(Fallback);
    }
    ethUsd, polUsd := eth.value, pol.value;
  }

  // ---------------------------------------------------------------------
  // Normalisation of the square-root price
  // ---------------------------------------------------------------------

  /** 10^n as a natural number. */
  function Pow10Nat(n: nat): (p: nat)
    ensures p >= 1
    ensures n > 0 ==> p >= 10
  {
    if n == 0 then 1 else 10 * Pow10Nat(n - 1)
  }

  /** 10^k for any integer k: Python's `10 ** k`, an exact integer when
      k >= 0 and the reciprocal power when k < 0. */
  function Pow10(k: int): (p: real)
    ensures p > 0.0
    ensures k >= 0 ==> p == Pow10Nat(k) as real
    ensures k < 0 ==> p * Pow10Nat(-k) as real == 1.0
  {
    if k >= 0 then Pow10Nat(k) as real else 1.0 / Pow10Nat(-k) as real
  }

  lemma Pow10Negate(k: int)
    ensures Pow10(k) * Pow10(-k) == 1.0
  {
    if k < 0 {
      assert Pow10(-k) == Pow10Nat(-k) as real;
    } else if k > 0 {
      assert Pow10(k) == Pow10Nat(k) as real;
      assert Pow10(-k) * Pow10Nat(k) as real == 1.0;
    }
  }

  /** `(sqrtPriceX96 / 2**96) ** 2`: the pool's price before decimals. */
  function RawPrice(sqrtPriceX96: nat): (price: real)
    ensures price >= 0.0
    ensures price == 0.0 <==> sqrtPriceX96 == 0
    ensures price * (Q96 * Q96) as real == (sqrtPriceX96 * sqrtPriceX96) as real
  {
    var s := sqrtPriceX96 as real / Q96 as real;
    assert s >= 0.0;
    assert s * Q96 as real == sqrtPriceX96 as real;
    assert s > 0.0 ==> s * s > 0.0;
    s * s
  }

  /** Scaling by a positive factor and then by its reciprocal gives back
      the value; a positive factor keeps the sign. */
  lemma ScaleBack(x: real, f: real, g: real)
    requires f > 0.0 && f * g == 1.0
    ensures x * f * g == x
    ensures x >= 0.0 ==> x * f >= 0.0
    ensures x * f == 0.0 <==> x == 0.0
  {
    assert x * f * g == x * (f * g);
  }

  /** The raw price scaled by `10 ** (decimals0 - decimals1)`. */
  function AdjustedPrice(sqrtPriceX96: nat, decimals0: int, decimals1: int): (price: real)
    ensures price >= 0.0
    ensures price == 0.0 <==> sqrtPriceX96 == 0
    ensures decimals0 == decimals1 ==> price == RawPrice(sqrtPriceX96)
    ensures price * Pow10(decimals1 - decimals0) == RawPrice(sqrtPriceX96)
  {
    var raw := RawPrice(sqrtPriceX96);
    Pow10Negate(decimals0 - decimals1);
    ScaleBack(raw, Pow10(decimals0 - decimals1), Pow10(decimals1 - decimals0));
    raw * Pow10(decimals0 - decimals1)
  }

  /** sqrtPriceX96 = 2^96 (square root 1.0) with equal decimals gives price
      1 in both directions. */
  lemma UnitSqrtPrice()
    ensures AdjustedPrice(Q96, 18, 18) == 1.0
    ensures 1.0 / AdjustedPrice(Q96, 18, 18) == 1.0
  {
    assert RawPrice(Q96) == 1.0;
  }

  /** A raw price of 1.0 between an 18-decimal token0 and a 6-decimal token1
      is scaled up by 10^12. */
  lemma EighteenOverSixDecimals()
    ensures AdjustedPrice(Q96, 18, 6) == 1000000000000.0
  {
    assert RawPrice(Q96) == 1.0;
    assert Pow10Nat(12) == 1000000000000;
  }

  /** sqrtPriceX96 = 2 * 2^96 with decimals 6 and 18: raw price 4, adjusted
      price 4 * 10^-12, and its reciprocal 2.5 * 10^11. */
  lemma SixOverEighteenDecimals()
    ensures RawPrice(2 * Q96) == 4.0
    ensures AdjustedPrice(2 * Q96, 6, 18) == 4.0 / 1000000000000.0
    ensures 1.0 / AdjustedPrice(2 * Q96, 6, 18) == 250000000000.0
  {
    var s := (2 * Q96) as real / Q96 as real;
    assert s == 2.0;
    assert Pow10Nat(12) == 1000000000000;
    assert Pow10(-12) == 1.0 / 1000000000000.0;
  }

  // ---------------------------------------------------------------------
  // Orientation: which pooled token is SHT
  // ---------------------------------------------------------------------

  /** `str.lower()` on one character, for the ASCII letters that addresses
      and quote symbols are made of. */
  function LowerChar(c: char): char {
    if 'A' <= c <= 'Z' then (c as int + 32) as char else c
  }

  /** `str.lower()` on a string. */
  function Lower(s: string): (t: string)
    ensures |t| == |s|
    ensures forall i :: 0 <= i < |s| ==> t[i] == LowerChar(s[i])
  {
    if s == [] then [] else [LowerChar(s[0])] + Lower(s[1..])
  }

  lemma {:induction false} LowerIdempotent(s: string)
    ensures Lower(Lower(s)) == Lower(s)
  {
    if s != [] {
      LowerIdempotent(s[1..]);
      assert Lower(s)[1..] == Lower(s[1..]);
    }
  }

  /** Address equality as the source decides it: after lower-casing both. */
  predicate SameAddress(a: string, b: string) {
    Lower(a) == Lower(b)
  }

  /** The three branches of the orientation check. */
  datatype Orientation = ShtIsToken0 | ShtIsToken1 | NeitherIsSht

  /** token0 is compared with SHT first, then token1. */
  function Orient(token0: string, token1: string, sht: string): Orientation {
    if SameAddress(token0, sht) then ShtIsToken0
    else if SameAddress(token1, sht) then ShtIsToken1
    else NeitherIsSht
  }

  /** The orientation depends only on the lower-cased addresses, and token0
      wins when both tokens match. */
  lemma OrientationIgnoresCase(token0: string, token1: string, sht: string)
    ensures Orient(Lower(token0), Lower(token1), Lower(sht)) == Orient(token0, token1, sht)
    ensures SameAddress(token0, sht) ==> Orient(token0, token1, sht) == ShtIsToken0
  {
    LowerIdempotent(token0);
    LowerIdempotent(token1);
    LowerIdempotent(sht);
  }

  // ---------------------------------------------------------------------
  // One pool: fetch_price_from_pool
  // ---------------------------------------------------------------------

  /** What the chain answered for one pool. Each required read is None when
      the call raised; `liquidity` is optional in the source as well.
      `checksumAddress` is the result of converting the configured address
      to checksum form, and `clock` the instant the record is stamped with. */
  datatype PoolReads = PoolReads(
    checksumAddress: Option<string>,
    token0: Option<string>,
    token1: Option<string>,
    sqrtPriceX96: Option<nat>,
    decimals0: Option<nat>,
    decimals1: Option<nat>,
    liquidity: Option<nat>,
    clock: int)
  {
    /** Every read the source does not guard itself succeeded. */
    predicate Complete() {
      checksumAddress.Some? && token0.Some? && token1.Some? && sqrtPriceX96.Some?
      && decimals0.Some? && decimals1.Some?
    }
  }

  /** Why a pool call appended nothing. */
  datatype Skip =
    | MissingPoolAddress  // the environment variable is unset or empty
    | CallFailed          // a required conversion or contract call raised
    | ZeroPrice           // 1 / adjusted_price divided by zero

  datatype Outcome =
    | Skipped(why: Skip)
    | Appended(record: Record, orientation: Orientation)

  /** `if not os.getenv(var)`: unset and empty both count as missing. */
  predicate Configured(env: map<string, string>, poolVar: string) {
    poolVar in env && env[poolVar] != ""
  }

  /** Name of the field holding the adjusted price. */
  function ShtPerKey(quote: string): string {
    "price_sht_per_" + Lower(quote)
  }

  /** Name of the field holding the reciprocal of the adjusted price. */
  function PerShtKey(quote: string): string {
    "price_" + Lower(quote) + "_per_sht"
  }

  /** The two price fields as the dict literal builds them: the reciprocal
      is written second, so it wins if both names coincide. */
  function PriceFields(quote: string, adjusted: real): map<string, real>
    requires adjusted != 0.0
  {
    map[ShtPerKey(quote) := adjusted][PerShtKey(quote) := 1.0 / adjusted]
  }

  /** What one call of fetch_price_from_pool decides for a pool whose
      address variable is `poolVar`, labelled `pairLabel` and quoted in `quote`. */
  function Observe(env: map<string, string>, poolVar: string, pairLabel: string, quote: string,
                   sht: string, chain: PoolReads, ethUsd: real, polUsd: real): (o: Outcome)
    // the missing address is reported before any chain read is looked at
    ensures o == Skipped(MissingPoolAddress) <==> !Configured(env, poolVar)
    ensures o == Skipped(CallFailed) <==> Configured(env, poolVar) && !chain.Complete()
    ensures o == Skipped(ZeroPrice) <==>
              Configured(env, poolVar) && chain.Complete() && chain.sqrtPriceX96.value == 0
    ensures o.Appended? ==>
              var r := o.record;
              var adjusted := AdjustedPrice(chain.sqrtPriceX96.value,
                                            chain.decimals0.value, chain.decimals1.value);
              && adjusted != 0.0
              && r.timestamp == chain.clock
              && r.pair == pairLabel
              && r.poolAddress == chain.checksumAddress.value
              && r.decimals0 == chain.decimals0.value
              && r.decimals1 == chain.decimals1.value
              && r.sqrtPriceX96 == chain.sqrtPriceX96.value
              && r.liquidity == (if chain.liquidity.Some? then Some(chain.liquidity.value as int) else None)
              && r.prices.Keys == {ShtPerKey(quote), PerShtKey(quote)}
              && r.prices[PerShtKey(quote)] * adjusted == 1.0
              && (ShtPerKey(quote) != PerShtKey(quote) ==>
                    r.prices[ShtPerKey(quote)] == adjusted
                    && r.prices[ShtPerKey(quote)] * r.prices[PerShtKey(quote)] == 1.0)
              && (r.ethUsd.Some? <==> quote == "ETH")
              && (r.ethUsd.Some? ==> r.ethUsd.value == ethUsd)
              && (r.polUsd.Some? <==> quote == "POL")
              && (r.polUsd.Some? ==> r.polUsd.value == polUsd)
              && !(r.ethUsd.Some? && r.polUsd.Some?)
              && o.orientation == Orient(chain.token0.value, chain.token1.value, sht)
  {
    if !Configured(env, poolVar) then Skipped(MissingPoolAddress)
    else if !chain.Complete() then Skipped(CallFailed)
    else
      var adjusted := AdjustedPrice(chain.sqrtPriceX96.value,
                                    chain.decimals0.value, chain.decimals1.value);
      var orientation := Orient(chain.token0.value, chain.token1.value, sht);
      if adjusted == 0.0 then Skipped(ZeroPrice)
      else
        var liquidity := if chain.liquidity.Some? then Some(chain.liquidity.value as int) else None;
        Appended(
          Record(
            timestamp := chain.clock,
            pair := pairLabel,
            prices := PriceFields(quote, adjusted),
            poolAddress := chain.checksumAddress.value,
            decimals0 := chain.decimals0.value,
            decimals1 := chain.decimals1.value,
            sqrtPriceX96 := chain.sqrtPriceX96.value,
            liquidity := liquidity,
            ethUsd := if quote == "ETH" then Some(ethUsd) else None,
            polUsd := if quote == "POL" then Some(polUsd) else None),
          orientation)
  }

  /** The record does not depend on which token (if any) is SHT: both
      orientations and the "neither" case write the same fields. */
  lemma RecordIgnoresOrientation(env: map<string, string>, poolVar: string, pairLabel: string,
                                 quote: string, sht1: string, sht2: string, chain: PoolReads,
                                 ethUsd: real, polUsd: real)
    ensures var o1 := Observe(env, poolVar, pairLabel, quote, sht1, chain, ethUsd, polUsd);
            var o2 := Observe(env, poolVar, pairLabel, quote, sht2, chain, ethUsd, polUsd);
            o1.Appended? == o2.Appended? && (o1.Appended? ==> o1.record == o2.record)
  {
  }

  /** The record appended for one of the configured pools: its label, its
      two price fields with the reciprocal under `price_<q>_per_sht`, and
      the reference price of its own quote asset only. */
  lemma PoolRecord(env: map<string, string>, p: Pool, sht: string, chain: PoolReads,
                   ethUsd: real, polUsd: real)
    requires ObservePool(env, p, sht, chain, ethUsd, polUsd).Appended?
    ensures var r := ObservePool(env, p, sht, chain, ethUsd, polUsd).record;
            var adjusted := AdjustedPrice(chain.sqrtPriceX96.value,
                                          chain.decimals0.value, chain.decimals1.value);
            && adjusted != 0.0
            && r.pair == Label(p)
            && r.prices.Keys == {ShtPerKey(Quote(p)), PerShtKey(Quote(p))}
            && r.prices[PerShtKey(Quote(p))] == 1.0 / adjusted
            && r.liquidity == (if chain.liquidity.Some? then Some(chain.liquidity.value as int) else None)
            && r.ethUsd == (if p == EthPool then Some(ethUsd) else None)
            && r.polUsd == (if p == PolPool then Some(polUsd) else None)
  {
    var r := ObservePool(env, p, sht, chain, ethUsd, polUsd).record;
    var adjusted := AdjustedPrice(chain.sqrtPriceX96.value,
                                  chain.decimals0.value, chain.decimals1.value);
    assert r.prices[PerShtKey(Quote(p))] * adjusted == 1.0;
  }

  /** The log lines one call appends: one record or none. */
  function Emitted(o: Outcome): (lines: seq<Record>)
    ensures |lines| <= 1
    ensures |lines| == 1 <==> o.Appended?
    ensures o.Appended? ==> lines[0] == o.record
  {
    if o.Appended? then [o.record] else []
  }

  // ---------------------------------------------------------------------
  // One cycle: get_token_price_from_pool
  // ---------------------------------------------------------------------

  /** The three configured pools, in the order a cycle evaluates them. */
  datatype Pool = UsdcPool | EthPool | PolPool

  function EnvVar(p: Pool): string {
    match p
    case UsdcPool => "Quickswap_Algebra_V3_POOL_SHT-USDC_ADDRESS"
    case EthPool => "Quickswap_Algebra_V3_POOL_SHT-ETH_ADDRESS"
    case PolPool => "Quickswap_Algebra_V3_POOL_SHT-POL_ADDRESS"
  }

  function Label(p: Pool): string {
    match p
    case UsdcPool => "SHT/USDC"
    case EthPool => "SHT/ETH"
    case PolPool => "SHT/POL"
  }

  function Quote(p: Pool): string {
    match p
    case UsdcPool => "USDC"
    case EthPool => "ETH"
    case PolPool => "POL"
  }

  /** Position of a label in the cycle order; 3 for any other label. */
  function LabelRank(name: string): nat {
    if name == "SHT/USDC" then 0
    else if name == "SHT/ETH" then 1
    else if name == "SHT/POL" then 2
    else 3
  }

  /** fetch_price_from_pool for one of the configured pools. */
  function ObservePool(env: map<string, string>, p: Pool, sht: string, chain: PoolReads,
                       ethUsd: real, polUsd: real): Outcome
  {
    Observe(env, EnvVar(p), Label(p), Quote(p), sht, chain, ethUsd, polUsd)
  }

  /** The log lines one cycle appends, given the per-pool chain answers and
      the cycle's reference prices. */
  function CycleRecords(env: map<string, string>, sht: string,
                        usdc: PoolReads, eth: PoolReads, pol: PoolReads,
                        ethUsd: real, polUsd: real): seq<Record>
  {
    Emitted(ObservePool(env, UsdcPool, sht, usdc, ethUsd, polUsd))
    + Emitted(ObservePool(env, EthPool, sht, eth, ethUsd, polUsd))
    + Emitted(ObservePool(env, PolPool, sht, pol, ethUsd, polUsd))
  }

  /** A record carries the reference price of its own quote asset and no
      other. */
  ghost predicate CarriesOwnReference(r: Record, ethUsd: real, polUsd: real) {
    && r.ethUsd == (if r.pair == "SHT/ETH" then Some(ethUsd) else None)
    && r.polUsd == (if r.pair == "SHT/POL" then Some(polUsd) else None)
  }

  lemma PoolLines(env: map<string, string>, p: Pool, sht: string, chain: PoolReads,
                  ethUsd: real, polUsd: real)
    ensures var o := ObservePool(env, p, sht, chain, ethUsd, polUsd);
            var rs := Emitted(o);
            && (|rs| == 1 <==> o.Appended?)
            && (forall i :: 0 <= i < |rs| ==>
                  rs[i].pair == Label(p) && CarriesOwnReference(rs[i], ethUsd, polUsd))
  {
    var o := ObservePool(env, p, sht, chain, ethUsd, polUsd);
    if o.Appended? {
      assert o.record.pair == Label(p);
    }
  }

  /** Gluing the lines of the three pools, each at most one record with
      its own label. */
  lemma ConcatLines(a: seq<Record>, b: seq<Record>, c: seq<Record>, ethUsd: real, polUsd: real)
    requires |a| <= 1 && |b| <= 1 && |c| <= 1
    requires forall i :: 0 <= i < |a| ==> a[i].pair == "SHT/USDC" && CarriesOwnReference(a[i], ethUsd, polUsd)
    requires forall i :: 0 <= i < |b| ==> b[i].pair == "SHT/ETH" && CarriesOwnReference(b[i], ethUsd, polUsd)
    requires forall i :: 0 <= i < |c| ==> c[i].pair == "SHT/POL" && CarriesOwnReference(c[i], ethUsd, polUsd)
    ensures var rs := a + b + c;
            && |rs| <= 3
            && (forall i, j :: 0 <= i < j < |rs| ==> LabelRank(rs[i].pair) < LabelRank(rs[j].pair))
            && (forall i :: 0 <= i < |rs| ==>
                  LabelRank(rs[i].pair) < 3 && CarriesOwnReference(rs[i], ethUsd, polUsd))
            && (|a| == 1 <==> exists i :: 0 <= i < |rs| && rs[i].pair == "SHT/USDC")
            && (|b| == 1 <==> exists i :: 0 <= i < |rs| && rs[i].pair == "SHT/ETH")
            && (|c| == 1 <==> exists i :: 0 <= i < |rs| && rs[i].pair == "SHT/POL")
  {
    var rs := a + b + c;
    forall i | 0 <= i < |rs|
      ensures (i < |a| && rs[i] == a[i])
              || (|a| <= i < |a| + |b| && rs[i] == b[i - |a|])
              || (|a| + |b| <= i && rs[i] == c[i - |a| - |b|])
    {
    }
    if |a| == 1 { assert rs[0] == a[0]; }
    if |b| == 1 { assert rs[|a|] == b[0]; }
    if |c| == 1 { assert rs[|a| + |b|] == c[0]; }
  }

  /** A cycle writes at most one record per pool, in the order USDC, ETH,
      POL, a pool's record exactly when its call appends, and every record
      carries the cycle's one reference price for its own quote asset only. */
  lemma CycleShape(env: map<string, string>, sht: string,
                   usdc: PoolReads, eth: PoolReads, pol: PoolReads,
                   ethUsd: real, polUsd: real)
    ensures var rs := CycleRecords(env, sht, usdc, eth, pol, ethUsd, polUsd);
            && |rs| <= 3
            && (forall i, j :: 0 <= i < j < |rs| ==> LabelRank(rs[i].pair) < LabelRank(rs[j].pair))
            && (forall i :: 0 <= i < |rs| ==>
                  LabelRank(rs[i].pair) < 3 && CarriesOwnReference(rs[i], ethUsd, polUsd))
            && (ObservePool(env, UsdcPool, sht, usdc, ethUsd, polUsd).Appended? <==>
                  exists i :: 0 <= i < |rs| && rs[i].pair == "SHT/USDC")
            && (ObservePool(env, EthPool, sht, eth, ethUsd, polUsd).Appended? <==>
                  exists i :: 0 <= i < |rs| && rs[i].pair == "SHT/ETH")
            && (ObservePool(env, PolPool, sht, pol, ethUsd, polUsd).Appended? <==>
                  exists i :: 0 <= i < |rs| && rs[i].pair == "SHT/POL")
  {
    var oa := ObservePool(env, UsdcPool, sht, usdc, ethUsd, polUsd);
    var ob := ObservePool(env, EthPool, sht, eth, ethUsd, polUsd);
    var oc := ObservePool(env, PolPool, sht, pol, ethUsd, polUsd);
    PoolLines(env, UsdcPool, sht, usdc, ethUsd, polUsd);
    PoolLines(env, EthPool, sht, eth, ethUsd, polUsd);
    PoolLines(env, PolPool, sht, pol, ethUsd, polUsd);
    ConcatLines(Emitted(oa), Emitted(ob), Emitted(oc), ethUsd, polUsd);
  }

  // ---------------------------------------------------------------------
  // The append-only log file
  // ---------------------------------------------------------------------

  /** data/price_log.jsonl: records are only ever appended. */
  class PriceLog {
    var records: seq<Record>

    constructor ()
      ensures records == []
    {
      records := [];
    }

    /** fetch_price_from_pool: appends the pool's record, or nothing. */
    method FetchPriceFromPool(env: map<string, string>, poolVar: string, pairLabel: string,
                              quote: string, sht: string, chain: PoolReads,
                              ethUsd: real, polUsd: real)
      modifies this
      ensures records == old(records) + Emitted(Observe(env, poolVar, pairLabel, quote, sht, chain, ethUsd, polUsd))
      ensures |records| <= |old(records)| + 1
      ensures records[..|old(records)|] == old(records)
    {
      var o := Observe(env, poolVar, pairLabel, quote, sht, chain, ethUsd, polUsd);
      if o.Appended? {
        records := records + [o.record];
      }
    }

    /** get_token_price_from_pool: one pair of reference prices, then the
        USDC, ETH and POL pools in that order. */
    method GetTokenPriceFromPool(env: map<string, string>, sht: string,
                                 ethFeed: Option<real>, polFeed: Option<real>,
                                 usdc: PoolReads, eth: PoolReads, pol: PoolReads)
      modifies this
      ensures records == old(records)
                         + CycleRecords(env, sht, usdc, eth, pol,
                                        UsdOrFallback(ethFeed), UsdOrFallback(polFeed))
    {
      var ethUsd, polUsd := LiveUsdPrices(ethFeed, polFeed);
      FetchPriceFromPool(env, EnvVar(UsdcPool), Label(UsdcPool), Quote(UsdcPool), sht, usdc, ethUsd, polUsd);
      FetchPriceFromPool(env, EnvVar(EthPool), Label(EthPool), Quote(EthPool), sht, eth, ethUsd, polUsd);
      FetchPriceFromPool(env, EnvVar(PolPool), Label(PolPool), Quote(PolPool), sht, pol, ethUsd, polUsd);
    }
  }
}
