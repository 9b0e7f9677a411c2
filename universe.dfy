/** Asset-universe resolution: the market-cap ranked coin list intersected
    with the base assets of USDT-quoted perpetual contracts, minus a fixed
    stablecoin denylist, in ranking order. */
module AssetUniverse {

  const Stables: set<string> := {"USDT", "USDC", "BUSD", "DAI", "TUSD", "USDP", "GUSD", "USDN"}
  const QuoteAsset: string := "USDT"
  const PerpetualContract: string := "PERPETUAL"

  /** A ranked coin. An absent or empty symbol is the empty string: both are
      falsy and are dropped. */
  datatype Coin = Coin(symbol: string, price: real)

  /** A futures instrument descriptor. */
  datatype Instrument = Instrument(symbol: string, baseAsset: string, contractType: string)

  /** A resolved asset: upper-case base symbol, trading pair and reference price. */
  datatype Asset = Asset(symbol: string, bin: string, price: real)

  function UpperChar(c: char): (u: char)
    ensures !('a' <= u <= 'z')
  {
    if 'a' <= c <= 'z' then (c as int - 32) as char else c
  }

  predicate IsUpper(s: string)
  {
    forall i :: 0 <= i < |s| ==> !('a' <= s[i] <= 'z')
  }

  /** `toUpperCase` on ASCII letters. */
  function Upper(s: string): (r: string)
    ensures |r| == |s| && IsUpper(r)
    // a lower-case ASCII letter becomes its capital; every other character stays
    ensures forall i :: 0 <= i < |s| ==>
      if 'a' <= s[i] <= 'z' then r[i] as int == s[i] as int - 32 else r[i] == s[i]
    ensures IsUpper(s) ==> r == s
  {
    seq(|s|, i requires 0 <= i < |s| => UpperChar(s[i]))
  }

  predicate EndsWith(s: string, suffix: string)
  {
    |suffix| <= |s| && s[|s| - |suffix|..] == suffix
  }

  predicate Tradable(ins: Instrument)
  {
    ins.contractType == PerpetualContract && EndsWith(ins.symbol, QuoteAsset)
  }

  /** The set of base assets with a USDT-quoted perpetual contract. */
  function FutureSet(ins: seq<Instrument>): (fs: set<string>)
    ensures forall k :: 0 <= k < |ins| && Tradable(ins[k]) ==> ins[k].baseAsset in fs
    ensures forall b :: b in fs ==> exists k :: 0 <= k < |ins| && Tradable(ins[k]) && ins[k].baseAsset == b
  {
    set k | 0 <= k < |ins| && Tradable(ins[k]) :: ins[k].baseAsset
  }

  function ToAsset(c: Coin): (a: Asset)
    ensures a.symbol == Upper(c.symbol) && a.price == c.price
    ensures a.bin == a.symbol + QuoteAsset
  {
    Asset(Upper(c.symbol), Upper(c.symbol) + QuoteAsset, c.price)
  }

  /** The reference: a coin is kept when it has a symbol whose upper-case
      form is neither a stablecoin nor missing from the futures set. */
  predicate Eligible(c: Coin, fs: set<string>)
  {
    |c.symbol| > 0 && Upper(c.symbol) !in Stables && Upper(c.symbol) in fs
  }

  /** Single-pass reference resolution: eligible coins, in order, as assets. */
  function Resolve(cs: seq<Coin>, fs: set<string>): (r: seq<Asset>)
    ensures |r| <= |cs|
    ensures forall k :: 0 <= k < |r| ==>
      IsUpper(r[k].symbol) && |r[k].symbol| > 0 && r[k].symbol !in Stables &&
      r[k].symbol in fs && r[k].bin == r[k].symbol + QuoteAsset
  {
    if cs == [] then []
    else (if Eligible(cs[0], fs) then [ToAsset(cs[0])] else []) + Resolve(cs[1..], fs)
  }

  // The first handler variant: drop falsy and stablecoin symbols, map, keep tradable.

  function KeepListedCoins(cs: seq<Coin>): (r: seq<Coin>)
    ensures |r| <= |cs|
    ensures forall k :: 0 <= k < |r| ==> r[k] in cs && |r[k].symbol| > 0 && Upper(r[k].symbol) !in Stables
    ensures forall c :: c in cs && |c.symbol| > 0 && Upper(c.symbol) !in Stables ==> c in r
  {
    if cs == [] then []
    else (if |cs[0].symbol| > 0 && Upper(cs[0].symbol) !in Stables then [cs[0]] else [])
         + KeepListedCoins(cs[1..])
  }

  function ToAssets(cs: seq<Coin>): (r: seq<Asset>)
    ensures |r| == |cs|
    ensures forall k :: 0 <= k < |cs| ==> r[k] == ToAsset(cs[k])
  {
    if cs == [] then [] else [ToAsset(cs[0])] + ToAssets(cs[1..])
  }

  function KeepTradable(assets: seq<Asset>, fs: set<string>): (r: seq<Asset>)
    ensures |r| <= |assets|
    ensures forall k :: 0 <= k < |r| ==> r[k] in assets && r[k].symbol in fs
    ensures forall a :: a in assets && a.symbol in fs ==> a in r
  {
    if assets == [] then []
    else (if assets[0].symbol in fs then [assets[0]] else []) + KeepTradable(assets[1..], fs)
  }

  function ResolvePlain(cs: seq<Coin>, ins: seq<Instrument>): (r: seq<Asset>)
    ensures r == Resolve(cs, FutureSet(ins))
  {
    PlainMatchesReference(cs, FutureSet(ins));
    KeepTradable(ToAssets(KeepListedCoins(cs)), FutureSet(ins))
  }

  // The second handler variant: drop falsy symbols, map, keep tradable non-stablecoins.

  function KeepNamed(cs: seq<Coin>): (r: seq<Coin>)
    ensures |r| <= |cs|
    ensures forall k :: 0 <= k < |r| ==> r[k] in cs && |r[k].symbol| > 0
    ensures forall c :: c in cs && |c.symbol| > 0 ==> c in r
  {
    if cs == [] then []
    else (if |cs[0].symbol| > 0 then [cs[0]] else []) + KeepNamed(cs[1..])
  }

  function KeepTradableUnstable(assets: seq<Asset>, fs: set<string>): (r: seq<Asset>)
    ensures |r| <= |assets|
    ensures forall k :: 0 <= k < |r| ==> r[k] in assets && r[k].symbol in fs && r[k].symbol !in Stables
    ensures forall a :: a in assets && a.symbol in fs && a.symbol !in Stables ==> a in r
  {
    if assets == [] then []
    else (if assets[0].symbol in fs && assets[0].symbol !in Stables then [assets[0]] else [])
         + KeepTradableUnstable(assets[1..], fs)
  }

  function ResolveRetrying(cs: seq<Coin>, ins: seq<Instrument>): (r: seq<Asset>)
    ensures r == Resolve(cs, FutureSet(ins))
  {
    RetryingMatchesReference(cs, FutureSet(ins));
    KeepTradableUnstable(ToAssets(KeepNamed(cs)), FutureSet(ins))
  }

  lemma {:induction false} PlainMatchesReference(cs: seq<Coin>, fs: set<string>)
    ensures KeepTradable(ToAssets(KeepListedCoins(cs)), fs) == Resolve(cs, fs)
  {
    if cs != [] {
      PlainMatchesReference(cs[1..], fs);
      var head := if |cs[0].symbol| > 0 && Upper(cs[0].symbol) !in Stables then [cs[0]] else [];
      assert KeepListedCoins(cs) == head + KeepListedCoins(cs[1..]);
      ToAssetsAppend(head, KeepListedCoins(cs[1..]));
      KeepTradableAppend(ToAssets(head), ToAssets(KeepListedCoins(cs[1..])), fs);
    }
  }

  lemma {:induction false} RetryingMatchesReference(cs: seq<Coin>, fs: set<string>)
    ensures KeepTradableUnstable(ToAssets(KeepNamed(cs)), fs) == Resolve(cs, fs)
  {
    if cs != [] {
      RetryingMatchesReference(cs[1..], fs);
      var head := if |cs[0].symbol| > 0 then [cs[0]] else [];
      assert KeepNamed(cs) == head + KeepNamed(cs[1..]);
      ToAssetsAppend(head, KeepNamed(cs[1..]));
      KeepTradableUnstableAppend(ToAssets(head), ToAssets(KeepNamed(cs[1..])), fs);
    }
  }

  /** Both handler variants resolve the same universe from the same payloads. */
  lemma VariantsAgree(cs: seq<Coin>, ins: seq<Instrument>)
    ensures ResolvePlain(cs, ins) == ResolveRetrying(cs, ins) == Resolve(cs, FutureSet(ins))
  {
    PlainMatchesReference(cs, FutureSet(ins));
    RetryingMatchesReference(cs, FutureSet(ins));
  }

  lemma {:induction false} ToAssetsAppend(xs: seq<Coin>, ys: seq<Coin>)
    ensures ToAssets(xs + ys) == ToAssets(xs) + ToAssets(ys)
  {
    if xs == [] {
      assert xs + ys == ys;
    } else {
      assert (xs + ys)[1..] == xs[1..] + ys;
      ToAssetsAppend(xs[1..], ys);
    }
  }

  lemma {:induction false} KeepTradableAppend(xs: seq<Asset>, ys: seq<Asset>, fs: set<string>)
    ensures KeepTradable(xs + ys, fs) == KeepTradable(xs, fs) + KeepTradable(ys, fs)
  {
    if xs == [] {
      assert xs + ys == ys;
    } else {
      assert (xs + ys)[1..] == xs[1..] + ys;
      KeepTradableAppend(xs[1..], ys, fs);
    }
  }

  lemma {:induction false} KeepTradableUnstableAppend(xs: seq<Asset>, ys: seq<Asset>, fs: set<string>)
    ensures KeepTradableUnstable(xs + ys, fs) == KeepTradableUnstable(xs, fs) + KeepTradableUnstable(ys, fs)
  {
    if xs == [] {
      assert xs + ys == ys;
    } else {
      assert (xs + ys)[1..] == xs[1..] + ys;
      KeepTradableUnstableAppend(xs[1..], ys, fs);
    }
  }

  /** Resolution preserves ranking order: it distributes over concatenation. */
  lemma {:induction false} ResolveAppend(xs: seq<Coin>, ys: seq<Coin>, fs: set<string>)
    ensures Resolve(xs + ys, fs) == Resolve(xs, fs) + Resolve(ys, fs)
  {
    if xs == [] {
      assert xs + ys == ys;
    } else {
      assert (xs + ys)[1..] == xs[1..] + ys;
      ResolveAppend(xs[1..], ys, fs);
    }
  }

  /** Every eligible coin appears, as its asset. */
  lemma {:induction false} ResolveComplete(cs: seq<Coin>, fs: set<string>, k: nat)
    requires k < |cs| && Eligible(cs[k], fs)
    ensures ToAsset(cs[k]) in Resolve(cs, fs)
  {
    if k > 0 {
      ResolveComplete(cs[1..], fs, k - 1);
    }
  }

  /** Every entry comes from an eligible coin. */
  lemma {:induction false} ResolveSound(cs: seq<Coin>, fs: set<string>, a: Asset)
    requires a in Resolve(cs, fs)
    ensures exists k :: 0 <= k < |cs| && Eligible(cs[k], fs) && a == ToAsset(cs[k])
  {
    if !(Eligible(cs[0], fs) && a == ToAsset(cs[0])) {
      ResolveSound(cs[1..], fs, a);
      var k :| 0 <= k < |cs[1..]| && Eligible(cs[1..][k], fs) && a == ToAsset(cs[1..][k]);
      assert cs[k + 1] == cs[1..][k];
    }
  }

  /** Stablecoins are excluded after upper-casing: a lower-case "usdc" is dropped. */
  lemma StablecoinExcludedAfterUppercase(price: real, fs: set<string>)
    ensures Resolve([Coin("usdc", price)], fs) == []
  {
    assert Upper("usdc") == "USDC";
  }

  /** A coin absent from the futures set is left out entirely. */
  lemma UntradableExcluded(cs: seq<Coin>, c: Coin, fs: set<string>)
    requires Upper(c.symbol) !in fs
    ensures Resolve([c] + cs, fs) == Resolve(cs, fs)
  {
  }
}
