/** The position and portfolio risk analyzer: symbol clustering, leverage
    buckets, liquidation distance, exposure and bias aggregation, and the
    highest-risk scan. Prices, sizes, leverage and PnL are exact reals. */
module Analyzer {
  import opened Wrappers
  import opened Text
  import opened Seqs

  // ---------------------------------------------------------------------
  // Symbol clusters
  // ---------------------------------------------------------------------

  datatype Cluster = BTC | ETH | L2 | MEME | AI | OTHER

  /** `SYMBOL_CLUSTERS`, in its declaration (and iteration) order. */
  const SymbolClusters: seq<(Cluster, seq<string>)> := [
    (BTC, ["BTC"]),
    (ETH, ["ETH"]),
    (L2, ["ARB", "OP", "MATIC", "AVAX", "STRK", "METIS", "IMX", "MANTA"]),
    (MEME, ["DOGE", "SHIB", "PEPE", "WIF", "BONK", "FLOKI", "BRETT"]),
    (AI, ["AGIX", "FET", "RNDR", "GRT", "OCEAN", "NMR", "TAO"])
  ]

  /** Some keyword of `keywords` occurs in `s`. */
  predicate AnyKeywordIn(keywords: seq<string>, s: string) {
    exists j :: 0 <= j < |keywords| && Contains(s, keywords[j])
  }

  /** The first cluster of `table` that has a keyword occurring in `s`. */
  function FirstCluster(table: seq<(Cluster, seq<string>)>, s: string): Cluster {
    if table == [] then OTHER
    else if AnyKeywordIn(table[0].1, s) then table[0].0
    else FirstCluster(table[1..], s)
  }

  /** The cluster `categorize_symbol` assigns to `symbol`. */
  function ClusterOf(symbol: string): Cluster {
    FirstCluster(SymbolClusters, Upper(symbol))
  }

  /** `categorize_symbol`: scan the table in order, return on the first
      keyword found in the upper-cased symbol, else `OTHER`. */
  method CategorizeSymbol(symbol: string) returns (cluster: Cluster)
    ensures cluster == ClusterOf(symbol)
  {
    var symbolUpper := Upper(symbol);
    var i := 0;
    while i < |SymbolClusters|
      invariant 0 <= i <= |SymbolClusters|
      invariant FirstCluster(SymbolClusters[i..], symbolUpper) == ClusterOf(symbol)
    {
      var (name, keywords) := SymbolClusters[i];
      var j := 0;
      while j < |keywords|
        invariant 0 <= j <= |keywords|
        invariant forall m :: 0 <= m < j ==> !Contains(symbolUpper, keywords[m])
      {
        if Contains(symbolUpper, keywords[j]) {
          return name;
        }
        j := j + 1;
      }
      assert SymbolClusters[i..][1..] == SymbolClusters[i + 1..];
      i := i + 1;
    }
    return OTHER;
  }

  /** `FirstCluster` over a table without `OTHER` entries: it is `OTHER`
      exactly when no keyword of any entry occurs, and otherwise it is the
      name of the first entry that has an occurring keyword. */
  lemma {:induction false} FirstClusterSpec(table: seq<(Cluster, seq<string>)>, s: string)
    requires forall i :: 0 <= i < |table| ==> table[i].0 != OTHER
    ensures FirstCluster(table, s) == OTHER <==> forall i :: 0 <= i < |table| ==> !AnyKeywordIn(table[i].1, s)
    ensures FirstCluster(table, s) != OTHER ==>
      exists i :: && 0 <= i < |table| && table[i].0 == FirstCluster(table, s) && AnyKeywordIn(table[i].1, s)
                  && forall j :: 0 <= j < i ==> !AnyKeywordIn(table[j].1, s)
  {
    if table != [] && !AnyKeywordIn(table[0].1, s) {
      FirstClusterSpec(table[1..], s);
      assert forall i :: 1 <= i < |table| ==> table[i] == table[1..][i - 1];
      if FirstCluster(table, s) != OTHER {
        var i :| && 0 <= i < |table[1..]| && table[1..][i].0 == FirstCluster(table, s) && AnyKeywordIn(table[1..][i].1, s)
                 && forall j :: 0 <= j < i ==> !AnyKeywordIn(table[1..][j].1, s);
        assert table[i + 1] == table[1..][i];
      }
    } else if table != [] {
      assert AnyKeywordIn(table[0].1, s);
    }
  }

  /** A symbol is `OTHER` iff no keyword of any cluster is a substring of
      its upper-cased form. */
  lemma ClusterOfOtherIff(symbol: string)
    ensures ClusterOf(symbol) == OTHER <==>
      forall i, j :: 0 <= i < |SymbolClusters| && 0 <= j < |SymbolClusters[i].1| ==>
        !Contains(Upper(symbol), SymbolClusters[i].1[j])
  {
    FirstClusterSpec(SymbolClusters, Upper(symbol));
  }

  /** The cluster of a symbol is the first cluster, in table order, that has
      a keyword in the upper-cased symbol. */
  lemma ClusterOfFirstMatch(symbol: string)
    ensures ClusterOf(symbol) != OTHER ==>
      exists i :: && 0 <= i < |SymbolClusters| && SymbolClusters[i].0 == ClusterOf(symbol)
                  && AnyKeywordIn(SymbolClusters[i].1, Upper(symbol))
                  && forall j :: 0 <= j < i ==> !AnyKeywordIn(SymbolClusters[j].1, Upper(symbol))
  {
    FirstClusterSpec(SymbolClusters, Upper(symbol));
  }

  /** Clustering depends only on the upper-cased symbol: it ignores case. */
  lemma ClusterOfIgnoresCase(symbol: string)
    ensures ClusterOf(Upper(symbol)) == ClusterOf(symbol)
    ensures ClusterOf(Lower(symbol)) == ClusterOf(symbol)
  {
    UpperIdempotent(symbol);
    LowerSpec(symbol);
  }

  /** "BTC" is checked first, so it wins over every other keyword; "ETH"
      wins over everything but "BTC". */
  lemma ClusterOfPriority(symbol: string)
    ensures Contains(Upper(symbol), "BTC") ==> ClusterOf(symbol) == BTC
    ensures !Contains(Upper(symbol), "BTC") && Contains(Upper(symbol), "ETH") ==> ClusterOf(symbol) == ETH
  {
    var u := Upper(symbol);
    assert SymbolClusters[0] == (BTC, ["BTC"]) && SymbolClusters[1] == (ETH, ["ETH"]);
    assert AnyKeywordIn(SymbolClusters[0].1, u) <==> Contains(u, "BTC") by {
      assert SymbolClusters[0].1[0] == "BTC";
    }
    assert AnyKeywordIn(SymbolClusters[1].1, u) <==> Contains(u, "ETH") by {
      assert SymbolClusters[1].1[0] == "ETH";
    }
    if !Contains(u, "BTC") && Contains(u, "ETH") {
      assert ClusterOf(symbol) == FirstCluster(SymbolClusters[1..], u);
      assert SymbolClusters[1..][0] == SymbolClusters[1];
    }
  }

  /** "ARBUSDT" holds no "BTC" or "ETH", and "ARB" is the first L2 keyword. */
  lemma ClusterOfArbusdt()
    ensures ClusterOf("ARBUSDT") == L2
  {
    var u := "ARBUSDT";
    assert Upper(u) == u by {
      forall i | 0 <= i < |u| ensures UpperChar(u[i]) == u[i] { }
    }
    assert 'C' !in u && 'E' !in u;
    assert !AnyKeywordIn(SymbolClusters[0].1, u) by {
      assert SymbolClusters[0].1 == ["BTC"];
      if Contains(u, "BTC") { ContainsChars(u, "BTC", 2); }
    }
    assert !AnyKeywordIn(SymbolClusters[1].1, u) by {
      assert SymbolClusters[1].1 == ["ETH"];
      if Contains(u, "ETH") { ContainsChars(u, "ETH", 0); }
    }
    assert AnyKeywordIn(SymbolClusters[2].1, u) by {
      assert SymbolClusters[2].1[0] == "ARB";
      assert "ARB" <= u;
    }
    assert FirstCluster(SymbolClusters[2..], u) == L2;
    assert FirstCluster(SymbolClusters[1..], u) == FirstCluster(SymbolClusters[2..], u) by {
      assert SymbolClusters[1..][0] == SymbolClusters[1] && SymbolClusters[1..][1..] == SymbolClusters[2..];
    }
  }

  // ---------------------------------------------------------------------
  // Leverage risk
  // ---------------------------------------------------------------------

  datatype LeverageRisk = Safe | Medium | High

  /** `calculate_leverage_risk`. */
  function LeverageRiskOf(leverage: real): (r: LeverageRisk)
    ensures r == Safe <==> leverage < 5.0
    ensures r == Medium <==> 5.0 <= leverage <= 10.0
    ensures r == High <==> leverage > 10.0
  {
    if leverage < 5.0 then Safe
    else if leverage <= 10.0 then Medium
    else High
  }

  function RiskRank(r: LeverageRisk): nat {
    match r
    case Safe => 0
    case Medium => 1
    case High => 2
  }

  /** More leverage never gives a lower bucket. */
  lemma LeverageRiskMonotone(a: real, b: real)
    requires a <= b
    ensures RiskRank(LeverageRiskOf(a)) <= RiskRank(LeverageRiskOf(b))
  {
  }

  // ---------------------------------------------------------------------
  // Single positions
  // ---------------------------------------------------------------------

  /** A position record as the exchange returns it; `None` is a missing field.
      Numeric fields are already parsed. */
  datatype RawPosition = RawPosition(
    symbol: Option<string>,
    side: Option<string>,
    size: Option<real>,
    avgPrice: Option<real>,
    markPrice: Option<real>,
    liqPrice: Option<real>,
    leverage: Option<real>,
    unrealisedPnl: Option<real>)

  datatype PnlStatus = Profit | Loss

  /** The normalized record `analyze_position` returns. */
  datatype Position = Position(
    symbol: string,
    side: string,
    size: real,
    entryPrice: real,
    markPrice: real,
    liqPrice: real,
    leverage: real,
    unrealizedPnl: real,
    exposureUsdt: real,
    liquidationDistancePct: real,
    pnlStatus: PnlStatus,
    leverageRisk: LeverageRisk,
    cluster: Cluster)

  function Abs(x: real): (r: real)
    ensures r >= 0.0 && (r == x || r == -x)
  {
    if x < 0.0 then -x else x
  }

  /** Distance from mark price to liquidation price, in percent of the mark
      price; 100 when there is no liquidation price (or no mark price). */
  function LiquidationDistancePct(markPrice: real, liqPrice: real): (d: real)
    ensures d >= 0.0
    ensures !(liqPrice > 0.0 && markPrice > 0.0) ==> d == 100.0
    ensures liqPrice > 0.0 && markPrice > 0.0 ==> d * markPrice == Abs(markPrice - liqPrice) * 100.0
  {
    if liqPrice > 0.0 && markPrice > 0.0 then Abs(markPrice - liqPrice) / markPrice * 100.0
    else 100.0
  }

  lemma SignOfProduct(a: real, b: real)
    requires b > 0.0
    ensures a > 0.0 <==> a * b > 0.0
    ensures a == 0.0 <==> a * b == 0.0
  {
  }

  /** A position is under 10% from liquidation exactly when it has a
      liquidation price within a tenth of its (positive) mark price. */
  lemma NearLiquidationIff(markPrice: real, liqPrice: real)
    ensures LiquidationDistancePct(markPrice, liqPrice) < 10.0 <==>
      liqPrice > 0.0 && markPrice > 0.0 && Abs(markPrice - liqPrice) * 10.0 < markPrice
  {
    if liqPrice > 0.0 && markPrice > 0.0 {
      var d := LiquidationDistancePct(markPrice, liqPrice);
      SignOfProduct(10.0 - d, markPrice);
      assert (10.0 - d) * markPrice == 10.0 * markPrice - d * markPrice;
    }
  }

  /** The distance is zero only when the mark price sits on a set liquidation
      price; so the risk scan's `> 0` guard skips exactly those positions. */
  lemma ZeroDistanceIff(markPrice: real, liqPrice: real)
    ensures LiquidationDistancePct(markPrice, liqPrice) == 0.0 <==> liqPrice > 0.0 && markPrice == liqPrice
  {
    if liqPrice > 0.0 && markPrice > 0.0 {
      SignOfProduct(LiquidationDistancePct(markPrice, liqPrice), markPrice);
    }
  }

  /** `analyze_position`: field defaults, exposure, liquidation distance,
      PnL status, leverage bucket and cluster. */
  function AnalyzePosition(raw: RawPosition): (p: Position)
    ensures p.symbol == raw.symbol.GetOr("")
    ensures IsLowerCase(p.side) && Upper(p.side) == Upper(raw.side.GetOr(""))
    ensures p.size == raw.size.GetOr(0.0) && p.entryPrice == raw.avgPrice.GetOr(0.0)
    ensures p.markPrice == raw.markPrice.GetOr(0.0) && p.unrealizedPnl == raw.unrealisedPnl.GetOr(0.0)
    ensures p.leverage == raw.leverage.GetOr(1.0)
    ensures p.liqPrice == raw.liqPrice.GetOr(0.0)
    ensures p.exposureUsdt >= 0.0
    ensures p.exposureUsdt == p.size * p.markPrice || p.exposureUsdt == -(p.size * p.markPrice)
    ensures p.liquidationDistancePct == LiquidationDistancePct(p.markPrice, p.liqPrice)
    ensures p.pnlStatus == Profit <==> p.unrealizedPnl > 0.0
    ensures p.leverageRisk == LeverageRiskOf(p.leverage)
    ensures p.cluster == ClusterOf(p.symbol)
  {
    var symbol := raw.symbol.GetOr("");
    var side := Lower(raw.side.GetOr(""));
    LowerSpec(raw.side.GetOr(""));
    var size := raw.size.GetOr(0.0);
    var entryPrice := raw.avgPrice.GetOr(0.0);
    var markPrice := raw.markPrice.GetOr(0.0);
    var liqPrice := raw.liqPrice.GetOr(0.0);
    var leverage := raw.leverage.GetOr(1.0);
    var unrealizedPnl := raw.unrealisedPnl.GetOr(0.0);
    Position(
      symbol, side, size, entryPrice, markPrice, liqPrice, leverage, unrealizedPnl,
      Abs(size * markPrice),
      LiquidationDistancePct(markPrice, liqPrice),
      if unrealizedPnl > 0.0 then Profit else Loss,
      LeverageRiskOf(leverage),
      ClusterOf(symbol))
  }

  // ---------------------------------------------------------------------
  // Orders
  // ---------------------------------------------------------------------

  datatype RawOrder = RawOrder(
    symbol: Option<string>,
    side: Option<string>,
    orderType: Option<string>,
    price: Option<real>,
    qty: Option<real>,
    orderId: Option<string>)

  datatype Order = Order(symbol: string, side: string, orderType: string, price: real, qty: real, orderId: string)

  /** One element of `analyze_orders`' output. */
  function NormalizeOrder(o: RawOrder): (r: Order)
    ensures r.symbol == o.symbol.GetOr("") && r.orderId == o.orderId.GetOr("")
    ensures IsLowerCase(r.side) && Upper(r.side) == Upper(o.side.GetOr(""))
    ensures IsLowerCase(r.orderType) && Upper(r.orderType) == Upper(o.orderType.GetOr(""))
    ensures r.price == o.price.GetOr(0.0) && r.qty == o.qty.GetOr(0.0)
  {
    LowerSpec(o.side.GetOr(""));
    LowerSpec(o.orderType.GetOr(""));
    Order(
      o.symbol.GetOr(""),
      Lower(o.side.GetOr("")),
      Lower(o.orderType.GetOr("")),
      o.price.GetOr(0.0),
      o.qty.GetOr(0.0),
      o.orderId.GetOr(""))
  }

  /** `analyze_orders`: one normalized order per raw order, in input order. */
  method AnalyzeOrders(orders: seq<RawOrder>) returns (analyzed: seq<Order>)
    ensures |analyzed| == |orders|
    ensures forall i :: 0 <= i < |orders| ==> analyzed[i] == NormalizeOrder(orders[i])
  {
    analyzed := [];
    for i := 0 to |orders|
      invariant |analyzed| == i
      invariant forall k :: 0 <= k < i ==> analyzed[k] == NormalizeOrder(orders[k])
    {
      analyzed := analyzed + [NormalizeOrder(orders[i])];
    }
  }

  // ---------------------------------------------------------------------
  // Portfolio aggregation
  // ---------------------------------------------------------------------

  datatype Bias = Long | Short | Neutral

  /** The `portfolio` part of the analysis. `clusters` is the
      `cluster_distribution` dict as (cluster, percent) pairs in its
      insertion order. */
  datatype Summary = Summary(
    totalLongExposure: real,
    totalShortExposure: real,
    netExposure: real,
    bias: Bias,
    clusters: seq<(Cluster, real)>,
    totalPositions: nat,
    totalOrders: nat,
    totalUnrealizedPnl: real)

  datatype Risks = Risks(
    highestRiskPosition: Option<Position>,
    highLeverageCount: nat,
    closeLiquidationCount: nat,
    totalRiskScore: real)

  /** The record `analyze_portfolio` and `analyze_positions` return. */
  datatype Analysis = Analysis(portfolio: Summary, positions: seq<Position>, orders: seq<Order>, risks: Risks)

  /** The fixed record returned when there are no positions and no orders. */
  const ZeroedAnalysis := Analysis(
    Summary(0.0, 0.0, 0.0, Neutral, [], 0, 0, 0.0), [], [], Risks(None, 0, 0, 0.0))

  /** Total exposure of the positions on `side` ("buy" is long, "sell" short). */
  function SideExposure(ps: seq<Position>, side: string): (r: real)
    ensures (forall i :: 0 <= i < |ps| ==> ps[i].exposureUsdt >= 0.0) ==> r >= 0.0
  {
    if ps == [] then 0.0
    else
      var last := ps[|ps| - 1];
      SideExposure(ps[..|ps| - 1], side) + (if last.side == side then last.exposureUsdt else 0.0)
  }

  function TotalPnl(ps: seq<Position>): real {
    if ps == [] then 0.0 else TotalPnl(ps[..|ps| - 1]) + ps[|ps| - 1].unrealizedPnl
  }

  /** The bias thresholds: more than 60% of the exposure long is `Long`,
      less than 40% is `Short`; no exposure at all is `Neutral`. */
  function BiasOf(totalLong: real, totalShort: real): (b: Bias)
    ensures totalLong + totalShort <= 0.0 ==> b == Neutral
  {
    var total := totalLong + totalShort;
    if total > 0.0 then
      var longPct := totalLong / total;
      if longPct > 0.6 then Long
      else if longPct < 0.4 then Short
      else Neutral
    else Neutral
  }

  lemma DivCompare(x: real, t: real, c: real)
    requires t > 0.0
    ensures x / t > c <==> x > c * t
    ensures x / t < c <==> x < c * t
  {
    SignOfProduct(x / t - c, t);
    SignOfProduct(c - x / t, t);
    assert (x / t - c) * t == x - c * t;
    assert (c - x / t) * t == c * t - x;
  }

  /** Bias in terms of the two exposures alone: long exposure more than 1.5
      times the short one is `Long`, and the mirror image is `Short`. */
  lemma BiasRatio(totalLong: real, totalShort: real)
    requires totalLong >= 0.0 && totalShort >= 0.0
    ensures BiasOf(totalLong, totalShort) == Long <==> totalLong > 1.5 * totalShort
    ensures BiasOf(totalLong, totalShort) == Short <==> totalShort > 1.5 * totalLong
  {
    var total := totalLong + totalShort;
    if total > 0.0 {
      DivCompare(totalLong, total, 0.6);
      DivCompare(totalLong, total, 0.4);
    }
  }

  function Mirror(b: Bias): Bias {
    match b
    case Long => Short
    case Short => Long
    case Neutral => Neutral
  }

  /** Swapping the long and short exposures mirrors the bias. */
  lemma BiasSymmetric(totalLong: real, totalShort: real)
    ensures BiasOf(totalShort, totalLong) == Mirror(BiasOf(totalLong, totalShort))
  {
    var total := totalLong + totalShort;
    if total > 0.0 {
      DivCompare(totalLong, total, 0.6);
      DivCompare(totalLong, total, 0.4);
      DivCompare(totalShort, total, 0.6);
      DivCompare(totalShort, total, 0.4);
    }
  }

  /** Total exposure of the positions of cluster `c`. */
  function ClusterExposure(ps: seq<Position>, c: Cluster): real {
    if ps == [] then 0.0
    else
      var last := ps[|ps| - 1];
      ClusterExposure(ps[..|ps| - 1], c) + (if last.cluster == c then last.exposureUsdt else 0.0)
  }

  /** The clusters of `ps`, each once, in order of first appearance: the key
      order of the `cluster_exposure` dict. */
  function ClustersInOrder(ps: seq<Position>): (r: seq<Cluster>)
    ensures forall i, j :: 0 <= i < j < |r| ==> r[i] != r[j]
    ensures forall c :: c in r <==> exists i :: 0 <= i < |ps| && ps[i].cluster == c
  {
    if ps == [] then []
    else
      var prefix := ps[..|ps| - 1];
      var r := ClustersInOrder(prefix);
      assert forall i :: 0 <= i < |prefix| ==> prefix[i] == ps[i];
      if ps[|ps| - 1].cluster in r then r else r + [ps[|ps| - 1].cluster]
  }

  /** A position of cluster `c` occurs at index `a` or earlier. */
  ghost predicate SeenBy(ps: seq<Position>, c: Cluster, a: int) {
    exists b :: 0 <= b <= a && b < |ps| && ps[b].cluster == c
  }

  /** Some position of key `i` occurs before every position of key `j`. */
  ghost predicate KeyPrecedes(ps: seq<Position>, i: int, j: int)
    requires 0 <= i < |ClustersInOrder(ps)| && 0 <= j < |ClustersInOrder(ps)|
  {
    exists a :: 0 <= a < |ps| && ps[a].cluster == ClustersInOrder(ps)[i] && !SeenBy(ps, ClustersInOrder(ps)[j], a)
  }

  /** The keys come in order of first appearance: for keys `i < j`, a
      position of key `i` occurs before any position of key `j`. */
  lemma {:induction false} ClustersInFirstAppearanceOrder(ps: seq<Position>, i: int, j: int)
    requires 0 <= i < j < |ClustersInOrder(ps)|
    ensures KeyPrecedes(ps, i, j)
  {
    var prefix := ps[..|ps| - 1];
    var last := ps[|ps| - 1];
    var r0 := ClustersInOrder(prefix);
    var r := ClustersInOrder(ps);
    assert forall k :: 0 <= k < |prefix| ==> prefix[k] == ps[k];
    assert r == r0 || r == r0 + [last.cluster];
    assert r[i] == r0[i];
    var a: int;
    if j < |r0| {
      ClustersInFirstAppearanceOrder(prefix, i, j);
      a :| 0 <= a < |prefix| && prefix[a].cluster == r0[i] && !SeenBy(prefix, r0[j], a);
    } else {
      assert r0[i] in r0;
      a :| 0 <= a < |prefix| && prefix[a].cluster == r0[i];
    }
    forall b | 0 <= b <= a
      ensures ps[b].cluster != r[j]
    {
      assert ps[b] == prefix[b];
      if j >= |r0| {
        assert r[j] == last.cluster && last.cluster !in r0;
      }
    }
    assert ps[a].cluster == r[i];
  }

  /** A cluster no position belongs to has no exposure. */
  lemma {:induction false} ClusterExposureAbsent(ps: seq<Position>, c: Cluster)
    requires c !in ClustersInOrder(ps)
    ensures ClusterExposure(ps, c) == 0.0
  {
    if ps != [] {
      var prefix := ps[..|ps| - 1];
      assert forall i :: 0 <= i < |prefix| ==> prefix[i] == ps[i];
      assert ps[|ps| - 1].cluster != c;
      ClusterExposureAbsent(prefix, c);
    }
  }

  /** `cluster_distribution`: each cluster's share of the total exposure in
      percent, in first-appearance order; empty when there is no exposure. */
  function ClusterDistribution(ps: seq<Position>, totalExposure: real): seq<(Cluster, real)> {
    if totalExposure > 0.0 then
      var cs := ClustersInOrder(ps);
      seq(|cs|, k requires 0 <= k < |cs| => (cs[k], ClusterExposure(ps, cs[k]) / totalExposure * 100.0))
    else []
  }

  /** Sum of the exposures of all positions, whatever their side. */
  function TotalExposure(ps: seq<Position>): real {
    if ps == [] then 0.0 else TotalExposure(ps[..|ps| - 1]) + ps[|ps| - 1].exposureUsdt
  }

  /** Sum of the cluster exposures over the clusters `cs`. */
  function SumClusterExposures(ps: seq<Position>, cs: seq<Cluster>): real {
    if cs == [] then 0.0 else SumClusterExposures(ps, cs[..|cs| - 1]) + ClusterExposure(ps, cs[|cs| - 1])
  }

  /** Sum of the percentages of a cluster distribution. */
  function SumShares(d: seq<(Cluster, real)>): real {
    if d == [] then 0.0 else SumShares(d[..|d| - 1]) + d[|d| - 1].1
  }

  /** Appending a position adds its exposure to the sum over distinct
      clusters exactly when its cluster is among them. */
  lemma {:induction false} SumClusterExposuresSnoc(ps: seq<Position>, p: Position, cs: seq<Cluster>)
    requires forall i, j :: 0 <= i < j < |cs| ==> cs[i] != cs[j]
    ensures SumClusterExposures(ps + [p], cs) ==
      SumClusterExposures(ps, cs) + (if p.cluster in cs then p.exposureUsdt else 0.0)
  {
    if cs != [] {
      var init := cs[..|cs| - 1];
      var c := cs[|cs| - 1];
      assert (ps + [p])[..|ps|] == ps;
      assert ClusterExposure(ps + [p], c) == ClusterExposure(ps, c) + (if p.cluster == c then p.exposureUsdt else 0.0);
      SumClusterExposuresSnoc(ps, p, init);
      assert cs == init + [c];
      assert c !in init;
    }
  }

  /** Summed over the `cluster_exposure` keys, the cluster exposures add up
      to the exposure of all positions. */
  lemma {:induction false} ClusterExposuresCoverAll(ps: seq<Position>)
    ensures SumClusterExposures(ps, ClustersInOrder(ps)) == TotalExposure(ps)
  {
    if ps != [] {
      var q := ps[..|ps| - 1];
      var p := ps[|ps| - 1];
      assert ps == q + [p];
      var keys := ClustersInOrder(q);
      ClusterExposuresCoverAll(q);
      SumClusterExposuresSnoc(q, p, keys);
      if p.cluster !in keys {
        var keys' := keys + [p.cluster];
        assert keys'[..|keys'| - 1] == keys;
        ClusterExposureAbsent(q, p.cluster);
        assert ps[..|ps| - 1] == q;
        assert ClusterExposure(ps, p.cluster) == p.exposureUsdt;
      }
    }
  }

  /** With every position a "buy" or a "sell", all exposure is long or short. */
  lemma {:induction false} TotalExposureBySide(ps: seq<Position>)
    requires forall i :: 0 <= i < |ps| ==> ps[i].side == "buy" || ps[i].side == "sell"
    ensures TotalExposure(ps) == SideExposure(ps, "buy") + SideExposure(ps, "sell")
  {
    if ps != [] {
      TotalExposureBySide(ps[..|ps| - 1]);
    }
  }

  /** Percentages of the cluster exposures sum to the percentage of their sum. */
  lemma {:induction false} SharesScale(ps: seq<Position>, cs: seq<Cluster>, total: real, d: seq<(Cluster, real)>)
    requires total > 0.0 && |d| == |cs|
    requires forall k :: 0 <= k < |d| ==> d[k].1 == ClusterExposure(ps, cs[k]) / total * 100.0
    ensures SumShares(d) == SumClusterExposures(ps, cs) / total * 100.0
  {
    if d != [] {
      var n := |d| - 1;
      SharesScale(ps, cs[..n], total, d[..n]);
      assert forall k :: 0 <= k < n ==> d[..n][k] == d[k] && cs[..n][k] == cs[k];
      DivAdd(SumClusterExposures(ps, cs[..n]), ClusterExposure(ps, cs[n]), total);
    }
  }

  lemma DivSelf(t: real)
    requires t > 0.0
    ensures t / t * 100.0 == 100.0
  {
  }

  lemma DivAdd(x: real, y: real, t: real)
    requires t > 0.0
    ensures (x + y) / t * 100.0 == x / t * 100.0 + y / t * 100.0
  {
    assert (x + y) / t == x / t + y / t;
  }

  /** When every position is long or short and there is exposure, the
      cluster percentages add up to 100. */
  lemma {:induction false} ClusterSharesSumTo100(ps: seq<Position>)
    requires forall i :: 0 <= i < |ps| ==> ps[i].side == "buy" || ps[i].side == "sell"
    requires SideExposure(ps, "buy") + SideExposure(ps, "sell") > 0.0
    ensures SumShares(ClusterDistribution(ps, SideExposure(ps, "buy") + SideExposure(ps, "sell"))) == 100.0
  {
    var total := SideExposure(ps, "buy") + SideExposure(ps, "sell");
    var cs := ClustersInOrder(ps);
    var d := ClusterDistribution(ps, total);
    assert |d| == |cs| && forall k :: 0 <= k < |d| ==> d[k].1 == ClusterExposure(ps, cs[k]) / total * 100.0;
    SharesScale(ps, cs, total, d);
    TotalExposureBySide(ps);
    ClusterExposuresCoverAll(ps);
    assert SumClusterExposures(ps, cs) == total;
    DivSelf(total);
  }

  predicate IsHighLeverage(p: Position) {
    p.leverageRisk == High
  }

  predicate IsNearLiquidation(p: Position) {
    p.liquidationDistancePct < 10.0
  }

  /** Positions the risk scan scores: those with a positive distance. */
  predicate HasRiskScore(p: Position) {
    p.liquidationDistancePct > 0.0
  }

  function RiskScore(p: Position): real
    requires HasRiskScore(p)
  {
    100.0 / p.liquidationDistancePct * p.leverage
  }

  /** What the greedy scan finds: `score` is the largest positive risk score
      (0 when none is positive), and `best` is the FIRST position reaching it,
      or `None` when the score is 0. */
  ghost predicate IsFirstHighestRisk(ps: seq<Position>, best: Option<Position>, score: real) {
    && score >= 0.0
    && (best.None? <==> score == 0.0)
    && (forall j :: 0 <= j < |ps| && HasRiskScore(ps[j]) ==> RiskScore(ps[j]) <= score)
    && (best.Some? ==>
          exists i :: && 0 <= i < |ps| && ps[i] == best.value && HasRiskScore(ps[i]) && RiskScore(ps[i]) == score
                      && forall j :: 0 <= j < i && HasRiskScore(ps[j]) ==> RiskScore(ps[j]) < score)
  }

  /** The description above pins the scan's outcome down uniquely. */
  lemma HighestRiskUnique(ps: seq<Position>, b1: Option<Position>, s1: real, b2: Option<Position>, s2: real)
    requires IsFirstHighestRisk(ps, b1, s1) && IsFirstHighestRisk(ps, b2, s2)
    ensures b1 == b2 && s1 == s2
  {
    var i1 := -1;
    var i2 := -1;
    if b1.Some? {
      i1 :| && 0 <= i1 < |ps| && ps[i1] == b1.value && HasRiskScore(ps[i1]) && RiskScore(ps[i1]) == s1
             && forall j :: 0 <= j < i1 && HasRiskScore(ps[j]) ==> RiskScore(ps[j]) < s1;
    }
    if b2.Some? {
      i2 :| && 0 <= i2 < |ps| && ps[i2] == b2.value && HasRiskScore(ps[i2]) && RiskScore(ps[i2]) == s2
             && forall j :: 0 <= j < i2 && HasRiskScore(ps[j]) ==> RiskScore(ps[j]) < s2;
    }
    assert s1 == s2;
    assert b1.Some? && b2.Some? ==> i1 == i2;
  }

  /** Every field of the analysis of `positions` and `orders`. */
  ghost predicate PortfolioOf(positions: seq<Position>, orders: seq<Order>, a: Analysis) {
    var totalLong := SideExposure(positions, "buy");
    var totalShort := SideExposure(positions, "sell");
    && a.positions == positions
    && a.orders == orders
    && a.portfolio.totalLongExposure == totalLong
    && a.portfolio.totalShortExposure == totalShort
    && a.portfolio.netExposure == totalLong - totalShort
    && a.portfolio.bias == BiasOf(totalLong, totalShort)
    && a.portfolio.clusters == ClusterDistribution(positions, totalLong + totalShort)
    && a.portfolio.totalPositions == |positions|
    && a.portfolio.totalOrders == |orders|
    && a.portfolio.totalUnrealizedPnl == TotalPnl(positions)
    && a.risks.highLeverageCount == |Filter(positions, IsHighLeverage)|
    && a.risks.closeLiquidationCount == |Filter(positions, IsNearLiquidation)|
    && IsFirstHighestRisk(positions, a.risks.highestRiskPosition, a.risks.totalRiskScore)
  }

  /** The early return for an empty portfolio agrees with the general
      computation: nothing but the zeroed record fits empty input. */
  lemma EmptyPortfolioIsZeroed(a: Analysis)
    ensures PortfolioOf([], [], a) <==> a == ZeroedAnalysis
  {
    if PortfolioOf([], [], a) {
      assert a.risks.highestRiskPosition.None?;
    }
  }

  /** The first loop of `analyze_portfolio`: build the `cluster_exposure`
      dict, modelled as its keys in insertion order and its values. */
  method SumClusterExposure(positions: seq<Position>) returns (keys: seq<Cluster>, exposure: map<Cluster, real>)
    ensures keys == ClustersInOrder(positions)
    ensures forall c :: c in exposure <==> c in keys
    ensures forall c :: c in exposure ==> exposure[c] == ClusterExposure(positions, c)
  {
    keys := [];
    exposure := map[];
    for i := 0 to |positions|
      invariant keys == ClustersInOrder(positions[..i])
      invariant forall c :: c in exposure <==> c in keys
      invariant forall c :: c in exposure ==> exposure[c] == ClusterExposure(positions[..i], c)
    {
      var cluster := positions[i].cluster;
      assert positions[..i + 1][..i] == positions[..i];
      var previous := 0.0;
      if cluster in exposure {
        previous := exposure[cluster];
      } else {
        ClusterExposureAbsent(positions[..i], cluster);
        keys := keys + [cluster];
      }
      exposure := exposure[cluster := previous + positions[i].exposureUsdt];
    }
    assert positions[..|positions|] == positions;
  }

  /** The second loop of `analyze_portfolio`: convert each exposure to a
      percentage of `total`, keeping the key order; nothing when `total` is
      not positive. */
  method ToPercentages(keys: seq<Cluster>, exposure: map<Cluster, real>, total: real)
    returns (distribution: seq<(Cluster, real)>)
    requires forall k :: 0 <= k < |keys| ==> keys[k] in exposure
    ensures total <= 0.0 ==> distribution == []
    ensures total > 0.0 ==> |distribution| == |keys|
    ensures total > 0.0 ==> forall j :: 0 <= j < |keys| ==>
      distribution[j] == (keys[j], exposure[keys[j]] / total * 100.0)
  {
    distribution := [];
    if total > 0.0 {
      for k := 0 to |keys|
        invariant |distribution| == k
        invariant forall j :: 0 <= j < k ==>
          distribution[j] == (keys[j], exposure[keys[j]] / total * 100.0)
      {
        distribution := distribution + [(keys[k], exposure[keys[k]] / total * 100.0)];
      }
    }
  }

  /** The two dict-building loops together compute `ClusterDistribution`. */
  lemma DistributionFromExposure(positions: seq<Position>, keys: seq<Cluster>, exposure: map<Cluster, real>,
                                 total: real, distribution: seq<(Cluster, real)>)
    requires keys == ClustersInOrder(positions)
    requires forall c :: c in exposure ==> exposure[c] == ClusterExposure(positions, c)
    requires forall k :: 0 <= k < |keys| ==> keys[k] in exposure
    requires total <= 0.0 ==> distribution == []
    requires total > 0.0 ==> |distribution| == |keys|
    requires total > 0.0 ==> forall j :: 0 <= j < |keys| ==>
      distribution[j] == (keys[j], exposure[keys[j]] / total * 100.0)
    ensures distribution == ClusterDistribution(positions, total)
  {
    if total > 0.0 {
      var spec := ClusterDistribution(positions, total);
      assert |spec| == |distribution|;
      forall j | 0 <= j < |keys| ensures spec[j] == distribution[j] {
        assert exposure[keys[j]] == ClusterExposure(positions, keys[j]);
      }
    }
  }

  /** The greedy max-scan of `analyze_portfolio`; a later equal score does
      not replace the first. */
  method ScanHighestRisk(positions: seq<Position>) returns (best: Option<Position>, score: real)
    ensures IsFirstHighestRisk(positions, best, score)
  {
    best := None;
    score := 0.0;
    ghost var bestIndex := -1;
    for i := 0 to |positions|
      invariant score >= 0.0
      invariant best.None? <==> score == 0.0
      invariant best.Some? ==>
        && 0 <= bestIndex < i && positions[bestIndex] == best.value
        && HasRiskScore(best.value) && RiskScore(best.value) == score
        && forall j :: 0 <= j < bestIndex && HasRiskScore(positions[j]) ==> RiskScore(positions[j]) < score
      invariant forall j :: 0 <= j < i && HasRiskScore(positions[j]) ==> RiskScore(positions[j]) <= score
    {
      var pos := positions[i];
      if pos.liquidationDistancePct > 0.0 {
        var riskScore := 100.0 / pos.liquidationDistancePct * pos.leverage;
        if riskScore > score {
          score := riskScore;
          best := Some(pos);
          bestIndex := i;
        }
      }
    }
  }

  /** `analyze_portfolio`. `orders` is `None` when the argument is omitted. */
  method AnalyzePortfolio(positions: seq<Position>, orders: Option<seq<Order>>) returns (a: Analysis)
    ensures PortfolioOf(positions, orders.GetOr([]), a)
    ensures positions == [] && orders.GetOr([]) == [] ==> a == ZeroedAnalysis
  {
    var orderList := orders.GetOr([]);
    if positions == [] && orderList == [] {
      EmptyPortfolioIsZeroed(ZeroedAnalysis);
      return ZeroedAnalysis;
    }

    var totalLong := SideExposure(positions, "buy");
    var totalShort := SideExposure(positions, "sell");
    var net := totalLong - totalShort;
    var total := totalLong + totalShort;
    var bias := BiasOf(totalLong, totalShort);

    var keys, exposure := SumClusterExposure(positions);
    var distribution := ToPercentages(keys, exposure, total);
    DistributionFromExposure(positions, keys, exposure, total, distribution);

    var totalPnl := TotalPnl(positions);
    var highLeveragePositions := Filter(positions, IsHighLeverage);
    var closeLiquidationPositions := Filter(positions, IsNearLiquidation);

    var best, score := ScanHighestRisk(positions);

    a := Analysis(
      Summary(totalLong, totalShort, net, bias, distribution, |positions|, |orderList|, totalPnl),
      positions,
      orderList,
      Risks(best, |highLeveragePositions|, |closeLiquidationPositions|, score));
  }

  /** `analyze_positions`: analyze each raw position, analyze the raw orders
      when there are any, and aggregate. */
  method AnalyzePositions(rawPositions: seq<RawPosition>, rawOrders: Option<seq<RawOrder>>) returns (a: Analysis)
    ensures |a.positions| == |rawPositions|
    ensures forall i :: 0 <= i < |rawPositions| ==> a.positions[i] == AnalyzePosition(rawPositions[i])
    ensures rawOrders.GetOr([]) == [] ==> a.orders == []
    ensures |a.orders| == |rawOrders.GetOr([])|
    ensures forall i :: 0 <= i < |a.orders| ==> a.orders[i] == NormalizeOrder(rawOrders.value[i])
    ensures PortfolioOf(a.positions, a.orders, a)
    ensures rawPositions == [] && rawOrders.GetOr([]) == [] ==> a == ZeroedAnalysis
  {
    var analyzedPositions := seq(|rawPositions|, i requires 0 <= i < |rawPositions| => AnalyzePosition(rawPositions[i]));
    var analyzedOrders: seq<Order> := [];
    if rawOrders.Some? && rawOrders.value != [] {
      analyzedOrders := AnalyzeOrders(rawOrders.value);
    }
    a := AnalyzePortfolio(analyzedPositions, Some(analyzedOrders));
  }
}
