/** The viewer's reading of the price log: keep the latest record per pair,
    choose a price, and size one tower per pair. Drawing is not modelled. */
module ThreeScene {
  import opened Observation
  import PriceChecker

  const UsdcPair: string := "SHT/USDC"
  const EthPair: string := "SHT/ETH"
  const PolPair: string := "SHT/POL"

  /** Height of a tower whose USD conversion is unavailable. */
  const DefaultHeight: real := 5.0

  /** The pairs `pairMap` has an entry for. */
  predicate KnownPair(pair: string) {
    pair == UsdcPair || pair == EthPair || pair == PolPair
  }

  /** JavaScript truthiness of a number that may be null or undefined
      (NaN is not modelled). */
  predicate Truthy(v: Option<real>) {
    v.Some? && v.value != 0.0
  }

  // ---------------------------------------------------------------------
  // The latest record of each pair (latestEntries)
  // ---------------------------------------------------------------------

  /** The pairs that occur among the first n lines. */
  ghost function PairsIn(lines: seq<Record>, n: nat): set<string>
    requires n <= |lines|
  {
    set i | 0 <= i < n :: lines[i].pair
  }

  /** Among the first n lines, line j is of pair p, no line of p is later in
      time, and every earlier line of p is strictly earlier in time. */
  ghost predicate FirstLatest(lines: seq<Record>, n: nat, p: string, j: int)
    requires n <= |lines|
  {
    && 0 <= j < n
    && lines[j].pair == p
    && (forall i :: 0 <= i < n && lines[i].pair == p ==> lines[i].timestamp <= lines[j].timestamp)
    && (forall i :: 0 <= i < j && lines[i].pair == p ==> lines[i].timestamp < lines[j].timestamp)
  }

  /** At most one line is the first latest of its pair. */
  lemma FirstLatestUnique(lines: seq<Record>, n: nat, p: string, j1: int, j2: int)
    requires n <= |lines|
    requires FirstLatest(lines, n, p, j1) && FirstLatest(lines, n, p, j2)
    ensures j1 == j2
  {
  }

  /** The reduction's invariant after k lines: `latest` has a key for each
      pair seen, and `kept` gives the index of the line kept for it. */
  ghost predicate Reduced(lines: seq<Record>, k: nat, latest: map<string, Record>,
                          kept: map<string, int>)
    requires k <= |lines|
  {
    && latest.Keys == kept.Keys == PairsIn(lines, k)
    && forall p :: p in kept ==>
         0 <= kept[p] < k && FirstLatest(lines, k, p, kept[p]) && latest[p] == lines[kept[p]]
  }

  lemma PairsGrow(lines: seq<Record>, k: nat)
    requires k < |lines|
    ensures PairsIn(lines, k + 1) == PairsIn(lines, k) + {lines[k].pair}
  {
  }

  /** A line kept for p stays the first latest when line k is not later. */
  lemma ExtendKept(lines: seq<Record>, k: nat, p: string, j: int)
    requires k < |lines|
    requires FirstLatest(lines, k, p, j)
    requires lines[k].pair == p ==> lines[k].timestamp <= lines[j].timestamp
    ensures FirstLatest(lines, k + 1, p, j)
  {
  }

  /** Line k becomes the first latest of its pair when every earlier line
      of that pair is strictly earlier in time. */
  lemma ExtendNew(lines: seq<Record>, k: nat)
    requires k < |lines|
    requires forall i :: 0 <= i < k && lines[i].pair == lines[k].pair ==>
               lines[i].timestamp < lines[k].timestamp
    ensures FirstLatest(lines, k + 1, lines[k].pair, k)
  {
  }

  /** A line that does not replace the kept one of its pair. */
  lemma KeepStep(lines: seq<Record>, k: nat, latest: map<string, Record>, kept: map<string, int>)
    requires k < |lines|
    requires Reduced(lines, k, latest, kept)
    requires lines[k].pair in latest && lines[k].timestamp <= latest[lines[k].pair].timestamp
    ensures Reduced(lines, k + 1, latest, kept)
  {
    PairsGrow(lines, k);
    forall p | p in kept
      ensures FirstLatest(lines, k + 1, p, kept[p])
    {
      ExtendKept(lines, k, p, kept[p]);
    }
  }

  /** A line that becomes the kept one of its pair. */
  lemma ReplaceStep(lines: seq<Record>, k: nat, latest: map<string, Record>, kept: map<string, int>)
    requires k < |lines|
    requires Reduced(lines, k, latest, kept)
    requires lines[k].pair !in latest || lines[k].timestamp > latest[lines[k].pair].timestamp
    ensures Reduced(lines, k + 1, latest[lines[k].pair := lines[k]], kept[lines[k].pair := k])
  {
    var e := lines[k];
    var latest' := latest[e.pair := e];
    var kept' := kept[e.pair := k];
    PairsGrow(lines, k);
    assert kept'.Keys == kept.Keys + {e.pair};
    assert latest'.Keys == latest.Keys + {e.pair};
    forall i | 0 <= i < k && lines[i].pair == e.pair
      ensures lines[i].timestamp < e.timestamp
    {
      assert lines[i].pair in PairsIn(lines, k);
      assert FirstLatest(lines, k, e.pair, kept[e.pair]);
    }
    ExtendNew(lines, k);
    forall p | p in kept' && p != e.pair
      ensures FirstLatest(lines, k + 1, p, kept'[p])
    {
      ExtendKept(lines, k, p, kept[p]);
    }
  }

  /** The `lines.forEach` reduction: a record replaces the kept one of its
      pair only when its timestamp is strictly later. */
  method LatestEntries(lines: seq<Record>) returns (latest: map<string, Record>)
    ensures latest.Keys == PairsIn(lines, |lines|)
    ensures forall p :: p in latest ==>
              exists j :: FirstLatest(lines, |lines|, p, j) && latest[p] == lines[j]
  {
    latest := map[];
    ghost var kept: map<string, int> := map[];
    var k := 0;
    while k < |lines|
      invariant 0 <= k <= |lines|
      invariant Reduced(lines, k, latest, kept)
    {
      var entry := lines[k];
      if entry.pair !in latest || entry.timestamp > latest[entry.pair].timestamp {
        ReplaceStep(lines, k, latest, kept);
        latest := latest[entry.pair := entry];
        kept := kept[entry.pair := k];
      } else {
        KeepStep(lines, k, latest, kept);
      }
      k := k + 1;
    }
    forall p | p in latest
      ensures exists j :: FirstLatest(lines, |lines|, p, j) && latest[p] == lines[j]
    {
      assert FirstLatest(lines, |lines|, p, kept[p]);
    }
  }

  // ---------------------------------------------------------------------
  // The price of an entry
  // ---------------------------------------------------------------------

  /** The three fields the viewer reads, in the order it tries them. */
  function Candidates(e: Record): seq<Option<real>> {
    [PriceField(e, "price_usdc_per_sht"),
     PriceField(e, "price_eth_per_sht"),
     PriceField(e, "price_pol_per_sht")]
  }

  /** `a || b || c`: the first truthy candidate, or else the last one
      whatever it is. */
  function ChoosePrice(e: Record): (price: Option<real>)
    ensures Truthy(price) <==> exists i :: 0 <= i < 3 && Truthy(Candidates(e)[i])
    ensures Truthy(price) ==>
              exists i :: 0 <= i < 3 && price == Candidates(e)[i]
                          && forall j :: 0 <= j < i ==> !Truthy(Candidates(e)[j])
    ensures !Truthy(price) ==> price == Candidates(e)[2]
  {
    var c := Candidates(e);
    if Truthy(c[0]) then c[0]
    else if Truthy(c[1]) then c[1]
    else c[2]
  }

  // ---------------------------------------------------------------------
  // Tower dimensions
  // ---------------------------------------------------------------------

  datatype Tower = Tower(height: real, liquidityUsd: real)

  /** The height: the price converted to USD when the pair's conversion is
      known, the default otherwise. */
  function UsdHeight(e: Record, price: real): real {
    match e.pair
    case "SHT/USDC" => price
    case "SHT/ETH" => if Truthy(e.ethUsd) then price * e.ethUsd.value else DefaultHeight
    case "SHT/POL" => if Truthy(e.polUsd) then price * e.polUsd.value else DefaultHeight
    case _ => DefaultHeight
  }

  /** The pool liquidity in USD: 6 decimals for USDC, 18 decimals times the
      reference price for ETH and POL, zero when that is not known. */
  function UsdLiquidity(e: Record, liquidity: int): real {
    match e.pair
    case "SHT/USDC" => liquidity as real / 1000000.0
    case "SHT/ETH" =>
      if Truthy(e.ethUsd) then liquidity as real / 1000000000000000000.0 * e.ethUsd.value else 0.0
    case "SHT/POL" =>
      if Truthy(e.polUsd) then liquidity as real / 1000000000000000000.0 * e.polUsd.value else 0.0
    case _ => 0.0
  }

  /** The tower an entry gets, or None when the viewer skips it: unknown
      pair, no price, or no liquidity. */
  function TowerOf(e: Record): (t: Option<Tower>)
    ensures t.None? <==>
              || !KnownPair(e.pair)
              || e.liquidity.None?
              || ((forall i :: 0 <= i < 3 ==> !Truthy(Candidates(e)[i])) && Candidates(e)[2].None?)
    ensures t.Some? ==> ChoosePrice(e).Some? && e.liquidity.Some?
  {
    var price := ChoosePrice(e);
    if !KnownPair(e.pair) || price.None? || e.liquidity.None? then None
    else Some(Tower(UsdHeight(e, price.value), UsdLiquidity(e, e.liquidity.value)))
  }

  /** The body of `Object.values(latestEntries).forEach`, up to the tower's
      dimensions. */
  method LoadTower(e: Record) returns (t: Option<Tower>)
    ensures t == TowerOf(e)
  {
    var known := KnownPair(e.pair);
    var price := ChoosePrice(e);
    var liquidity := e.liquidity;
    if !known || price.None? || liquidity.None? {
      return None;
    }
    var height := DefaultHeight;
    if e.pair == UsdcPair {
      height := price.value;
    } else if e.pair == EthPair && Truthy(e.ethUsd) {
      height := price.value * e.ethUsd.value;
    } else if e.pair == PolPair && Truthy(e.polUsd) {
      height := price.value * e.polUsd.value;
    }
    var liquidityInUsd := 0.0;
    if e.pair == UsdcPair {
      liquidityInUsd := liquidity.value as real / 1000000.0;
    } else if e.pair == EthPair && Truthy(e.ethUsd) {
      liquidityInUsd := (liquidity.value as real / 1000000000000000000.0) * e.ethUsd.value;
    } else if e.pair == PolPair && Truthy(e.polUsd) {
      liquidityInUsd := (liquidity.value as real / 1000000000000000000.0) * e.polUsd.value;
    }
    assert height == UsdHeight(e, price.value);
    assert liquidityInUsd == UsdLiquidity(e, liquidity.value);
    t := Some(Tower(height, liquidityInUsd));
  }

  /** The sentinel the monitor stores for a missing reference
      price is truthy, so it is used as a multiplier: a positive price gives
      a negative height and a positive liquidity a negative USD value. */
  lemma SentinelIsMultiplier(e: Record)
    requires e.pair == EthPair && e.ethUsd == Some(PriceChecker.Fallback)
    requires e.liquidity.Some? && e.liquidity.value > 0
    requires ChoosePrice(e).Some? && ChoosePrice(e).value > 0.0
    ensures TowerOf(e).Some?
    ensures TowerOf(e).value.height == ChoosePrice(e).value * PriceChecker.Fallback
    ensures TowerOf(e).value.height < 0.0 && TowerOf(e).value.liquidityUsd < 0.0
  {
  }

  // ---------------------------------------------------------------------
  // The viewer reading what the monitor wrote
  // ---------------------------------------------------------------------

  /** The field the viewer reads for each pool is the one holding the
      reciprocal of the adjusted price, and the other two are absent. */
  lemma PerShtKeys(p: PriceChecker.Pool)
    ensures PriceChecker.PerShtKey(PriceChecker.Quote(p)) ==
              match p
              case UsdcPool => "price_usdc_per_sht"
              case EthPool => "price_eth_per_sht"
              case PolPool => "price_pol_per_sht"
    ensures PriceChecker.ShtPerKey(PriceChecker.Quote(p)) ==
              match p
              case UsdcPool => "price_sht_per_usdc"
              case EthPool => "price_sht_per_eth"
              case PolPool => "price_sht_per_pol"
  {
    match p
    case UsdcPool =>
      assert PriceChecker.Lower("USDC") == "usdc" by {
        assert "USDC"[1..] == "SDC" && "SDC"[1..] == "DC" && "DC"[1..] == "C" && "C"[1..] == "";
      }
    case EthPool =>
      assert PriceChecker.Lower("ETH") == "eth" by {
        assert "ETH"[1..] == "TH" && "TH"[1..] == "H" && "H"[1..] == "";
      }
    case PolPool =>
      assert PriceChecker.Lower("POL") == "pol" by {
        assert "POL"[1..] == "OL" && "OL"[1..] == "L" && "L"[1..] == "";
      }
  }

  /** The tower the viewer should draw for pool p at a price in the quote
      asset: height and liquidity in USD, converted with the cycle's
      reference price whenever it is non-zero. */
  function PoolTower(p: PriceChecker.Pool, price: real, liquidity: int,
                     ethUsd: real, polUsd: real): Tower
  {
    var l := liquidity as real;
    match p
    case UsdcPool => Tower(price, l / 1000000.0)
    case EthPool =>
      if ethUsd != 0.0 then Tower(price * ethUsd, l / 1000000000000000000.0 * ethUsd)
      else Tower(DefaultHeight, 0.0)
    case PolPool =>
      if polUsd != 0.0 then Tower(price * polUsd, l / 1000000000000000000.0 * polUsd)
      else Tower(DefaultHeight, 0.0)
  }

  /** The viewer's price and tower for any record shaped like the ones the
      monitor writes for pool p, with `price` in its `price_<q>_per_sht`
      field. */
  lemma PoolRecordTower(r: Record, p: PriceChecker.Pool, price: real, ethUsd: real, polUsd: real)
    requires r.pair == PriceChecker.Label(p)
    requires r.prices.Keys == {PriceChecker.ShtPerKey(PriceChecker.Quote(p)),
                               PriceChecker.PerShtKey(PriceChecker.Quote(p))}
    requires r.prices[PriceChecker.PerShtKey(PriceChecker.Quote(p))] == price && price != 0.0
    requires r.ethUsd == (if p == PriceChecker.EthPool then Some(ethUsd) else None)
    requires r.polUsd == (if p == PriceChecker.PolPool then Some(polUsd) else None)
    ensures ChoosePrice(r) == Some(price)
    ensures TowerOf(r).None? <==> r.liquidity.None?
    ensures r.liquidity.Some? ==>
              TowerOf(r).value == PoolTower(p, price, r.liquidity.value, ethUsd, polUsd)
  {
    PerShtKeys(p);
    match p
    case UsdcPool =>
      assert Candidates(r)[0] == Some(price);
    case EthPool =>
      assert "price_usdc_per_sht" !in r.prices;
      assert Candidates(r)[1] == Some(price);
    case PolPool =>
      assert "price_usdc_per_sht" !in r.prices;
      assert "price_eth_per_sht" !in r.prices;
      assert Candidates(r)[2] == Some(price);
  }

  /** For a record the monitor appended for one of its pools, the viewer's
      price is the reciprocal of the adjusted price; the tower is skipped
      exactly when the liquidity read failed; otherwise its height is that
      price in USD (the reference price is used whenever it is non-zero,
      the sentinel included) and its liquidity is converted the same way. */
  lemma ObservedTower(env: map<string, string>, p: PriceChecker.Pool, sht: string,
                      chain: PriceChecker.PoolReads, ethUsd: real, polUsd: real)
    requires PriceChecker.ObservePool(env, p, sht, chain, ethUsd, polUsd).Appended?
    ensures var r := PriceChecker.ObservePool(env, p, sht, chain, ethUsd, polUsd).record;
            var adjusted := PriceChecker.AdjustedPrice(chain.sqrtPriceX96.value,
                                                       chain.decimals0.value, chain.decimals1.value);
            var price := 1.0 / adjusted;
            && adjusted != 0.0
            && ChoosePrice(r) == Some(price)
            && (TowerOf(r).None? <==> chain.liquidity.None?)
            && (chain.liquidity.Some? ==>
                  TowerOf(r).value == PoolTower(p, price, chain.liquidity.value, ethUsd, polUsd))
  {
    var r := PriceChecker.ObservePool(env, p, sht, chain, ethUsd, polUsd).record;
    var adjusted := PriceChecker.AdjustedPrice(chain.sqrtPriceX96.value,
                                               chain.decimals0.value, chain.decimals1.value);
    PriceChecker.PoolRecord(env, p, sht, chain, ethUsd, polUsd);
    PoolRecordTower(r, p, 1.0 / adjusted, ethUsd, polUsd);
  }
}
