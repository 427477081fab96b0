/** The suggestion generator: the rule-based `_fallback_analysis` and the
    dispatch in `analyze_with_ai`. Suggestions are tagged values carrying the
    data their messages would print. */
module AiAnalysis {
  import opened Wrappers
  import opened Text
  import opened Seqs
  import opened Analyzer
  import Config

  datatype Suggestion =
    | AddCollateral(symbol: string, side: string, liquidationDistancePct: real)
    | ReduceLeverage(symbol: string, leverage: real)
    | Diversify(cluster: Cluster, percent: real)
    | TakeProfits(count: nat)
    | Hedge(bias: Bias, opposite: Bias)
    | TightenStopLosses
    | ReviewLosing(count: nat)
    | ReduceOverallLeverage
    | KeepMonitoring
    | Advice(text: string)  // free text from the language model; never produced by the rules

  datatype Suggestions = Suggestions(urgent: seq<Suggestion>, recommended: seq<Suggestion>, optional: seq<Suggestion>)

  /** Every bucket is cut to this many entries. */
  const BucketCap: nat := 4
  /** At most this many over-leveraged positions get an urgent entry. */
  const LeverageEntries: nat := 2

  predicate IsOverLeveraged(p: Position) {
    p.leverage > 10.0
  }

  predicate IsBigWinner(p: Position) {
    p.pnlStatus == Profit && p.unrealizedPnl > 100.0
  }

  predicate IsBigLoser(p: Position) {
    p.pnlStatus == Loss && p.unrealizedPnl < -100.0
  }

  predicate UsesLeverage(p: Position) {
    p.leverageRisk == Medium || p.leverageRisk == High
  }

  function CloseOut(p: Position): Suggestion {
    AddCollateral(p.symbol, Upper(p.side), p.liquidationDistancePct)
  }

  function Deleverage(p: Position): Suggestion {
    ReduceLeverage(p.symbol, p.leverage)
  }

  function Min(a: int, b: int): int {
    if a <= b then a else b
  }

  /** `max(items, key=lambda x: x[1])`: the first entry with the largest value. */
  function MaxByValue(items: seq<(Cluster, real)>): (m: (Cluster, real))
    requires items != []
    ensures forall k :: 0 <= k < |items| ==> items[k].1 <= m.1
    ensures exists i :: 0 <= i < |items| && items[i] == m && forall k :: 0 <= k < i ==> items[k].1 < m.1
  {
    if |items| == 1 then items[0]
    else
      var rest := MaxByValue(items[1..]);
      assert forall k :: 1 <= k < |items| ==> items[k] == items[1..][k - 1];
      if rest.1 > items[0].1 then
        var i :| 0 <= i < |items[1..]| && items[1..][i] == rest && forall k :: 0 <= k < i ==> items[1..][k].1 < rest.1;
        assert items[i + 1] == rest;
        rest
      else
        items[0]
  }

  // ---------------------------------------------------------------------
  // The rules, bucket by bucket, before truncation
  // ---------------------------------------------------------------------

  /** Add-collateral entries for the near-liquidation positions, then
      reduce-leverage entries for the first two over-leveraged ones. */
  function UrgentRules(ps: seq<Position>): seq<Suggestion> {
    UrgentFrom(Filter(ps, IsNearLiquidation), Take(Filter(ps, IsOverLeveraged), LeverageEntries))
  }

  /** The urgent entries for the given close and over-leveraged positions. */
  function UrgentFrom(near: seq<Position>, over: seq<Position>): seq<Suggestion> {
    seq(|near|, k requires 0 <= k < |near| => CloseOut(near[k]))
      + seq(|over|, k requires 0 <= k < |over| => Deleverage(over[k]))
  }

  function DiversifyRule(clusters: seq<(Cluster, real)>): seq<Suggestion> {
    if clusters != [] then
      var top := MaxByValue(clusters);
      if top.1 > 40.0 then [Diversify(top.0, top.1)] else []
    else []
  }

  function TakeProfitRule(ps: seq<Position>): seq<Suggestion> {
    var winners := Filter(ps, IsBigWinner);
    if winners != [] then [TakeProfits(|winners|)] else []
  }

  function HedgeRule(bias: Bias): seq<Suggestion> {
    if bias == Long || bias == Short then [Hedge(bias, if bias == Long then Short else Long)] else []
  }

  function RecommendedRules(a: Analysis): seq<Suggestion> {
    DiversifyRule(a.portfolio.clusters) + TakeProfitRule(a.positions) + HedgeRule(a.portfolio.bias)
  }

  function StopLossRule(ps: seq<Position>): seq<Suggestion> {
    if exists i :: 0 <= i < |ps| && UsesLeverage(ps[i]) then [TightenStopLosses] else []
  }

  function LosingRule(ps: seq<Position>): seq<Suggestion> {
    var losers := Filter(ps, IsBigLoser);
    if losers != [] then [ReviewLosing(|losers|)] else []
  }

  function LeverageCautionRule(risks: Risks): seq<Suggestion> {
    if risks.highLeverageCount > 3 then [ReduceOverallLeverage] else []
  }

  function OptionalRules(a: Analysis): seq<Suggestion> {
    StopLossRule(a.positions) + LosingRule(a.positions) + LeverageCautionRule(a.risks)
  }

  /** What `_fallback_analysis` returns: the three buckets, the balanced
      message when no rule fired, each bucket cut to `BucketCap`. */
  function Fallback(a: Analysis): (s: Suggestions)
    ensures |s.urgent| <= BucketCap && |s.recommended| <= BucketCap && |s.optional| <= BucketCap
    ensures s.urgent != [] || s.recommended != [] || s.optional != []
  {
    var urgent := UrgentRules(a.positions);
    var recommended := RecommendedRules(a);
    var optional := OptionalRules(a);
    var optional' := if urgent == [] && recommended == [] && optional == [] then [KeepMonitoring] else optional;
    Suggestions(Take(urgent, BucketCap), Take(recommended, BucketCap), Take(optional', BucketCap))
  }

  // ---------------------------------------------------------------------
  // What the rules promise
  // ---------------------------------------------------------------------

  /** `m` is the first entry of `items` holding the largest value. */
  ghost predicate IsFirstMax(items: seq<(Cluster, real)>, m: (Cluster, real)) {
    && (forall k :: 0 <= k < |items| ==> items[k].1 <= m.1)
    && exists i :: 0 <= i < |items| && items[i] == m && forall k :: 0 <= k < i ==> items[k].1 < m.1
  }

  /** Recommended and optional hold at most three entries each, so the cut
      to four never drops one of them. */
  lemma {:induction false} NothingRecommendedIsCut(a: Analysis)
    ensures |RecommendedRules(a)| <= 3 && |OptionalRules(a)| <= 3
    ensures Fallback(a).recommended == RecommendedRules(a)
    ensures OptionalRules(a) != [] ==> Fallback(a).optional == OptionalRules(a)
  {
  }

  /** The urgent rules before the cut: the near-liquidation entries first,
      then the first over-leveraged ones. */
  lemma UrgentFromShape(near: seq<Position>, over: seq<Position>)
    ensures
      var u := UrgentFrom(near, over);
      && |u| == |near| + |over|
      && (forall k :: 0 <= k < |near| ==> u[k] == CloseOut(near[k]))
      && (forall k :: |near| <= k < |u| ==> u[k] == Deleverage(over[k - |near|]))
  {
  }

  lemma UrgentRulesShape(ps: seq<Position>)
    ensures
      var u := UrgentRules(ps);
      var near := Filter(ps, IsNearLiquidation);
      var over := Filter(ps, IsOverLeveraged);
      && |u| == |near| + Min(LeverageEntries, |over|)
      && (forall k :: 0 <= k < |near| ==> u[k] == CloseOut(near[k]))
      && (forall k :: |near| <= k < |u| ==> u[k] == Deleverage(over[k - |near|]))
  {
    var near := Filter(ps, IsNearLiquidation);
    var all := Filter(ps, IsOverLeveraged);
    var over := Take(all, LeverageEntries);
    UrgentFromShape(near, over);
  }

  /** The urgent bucket: one add-collateral entry per position under 10%
      from liquidation, in position order, then reduce-leverage entries for
      at most the first two positions above 10x, cut to four entries. */
  lemma UrgentEntries(a: Analysis)
    ensures
      var u := Fallback(a).urgent;
      var near := Filter(a.positions, IsNearLiquidation);
      var over := Filter(a.positions, IsOverLeveraged);
      && |u| == Min(BucketCap, |near| + Min(LeverageEntries, |over|))
      && (forall k :: 0 <= k < |u| && k < |near| ==> u[k] == CloseOut(near[k]))
      && (forall k :: 0 <= k < |u| && |near| <= k ==>
            k - |near| < LeverageEntries && u[k] == Deleverage(over[k - |near|]))
  {
    UrgentRulesShape(a.positions);
  }

  /** Every urgent add-collateral entry is for a position less than 10%
      from liquidation, and every reduce-leverage entry for one above 10x. */
  lemma UrgentEntriesJustified(a: Analysis)
    ensures
      var u := Fallback(a).urgent;
      && (forall k :: 0 <= k < |u| && u[k].AddCollateral? ==> u[k].liquidationDistancePct < 10.0)
      && (forall k :: 0 <= k < |u| && u[k].ReduceLeverage? ==> u[k].leverage > 10.0)
  {
    var near := Filter(a.positions, IsNearLiquidation);
    var over := Filter(a.positions, IsOverLeveraged);
    UrgentEntries(a);
    FilterMembers(a.positions, IsNearLiquidation);
    FilterMembers(a.positions, IsOverLeveraged);
    assert forall k :: 0 <= k < |near| ==> IsNearLiquidation(near[k]);
    assert forall k :: 0 <= k < |over| ==> IsOverLeveraged(over[k]);
  }

  /** No urgent entry at all iff no position is near liquidation or above 10x. */
  lemma UrgentEmptyIff(a: Analysis)
    ensures Fallback(a).urgent == [] <==>
      forall i :: 0 <= i < |a.positions| ==> !IsNearLiquidation(a.positions[i]) && !IsOverLeveraged(a.positions[i])
  {
    FilterEmptyIff(a.positions, IsNearLiquidation);
    FilterEmptyIff(a.positions, IsOverLeveraged);
  }

  /** The diversify rule on its own: one entry iff some share exceeds 40%,
      naming the first cluster with the largest share. */
  lemma DiversifyRuleIff(clusters: seq<(Cluster, real)>)
    ensures
      var d := DiversifyRule(clusters);
      && (d != [] <==> exists j :: 0 <= j < |clusters| && clusters[j].1 > 40.0)
      && |d| <= 1
      && (d != [] ==> d[0].Diversify? && d[0].percent > 40.0 && IsFirstMax(clusters, (d[0].cluster, d[0].percent)))
  {
    if clusters != [] {
      var top := MaxByValue(clusters);
      if exists j :: 0 <= j < |clusters| && clusters[j].1 > 40.0 {
        var j :| 0 <= j < |clusters| && clusters[j].1 > 40.0;
        assert clusters[j].1 <= top.1;
      }
    }
  }

  /** A diversify recommendation appears iff some cluster holds more than
      40% of the exposure, and it comes first and names the first cluster with the
      largest share. */
  lemma DiversifyIff(a: Analysis)
    ensures
      var r := RecommendedRules(a);
      var clusters := a.portfolio.clusters;
      && ((exists k :: 0 <= k < |r| && r[k].Diversify?) <==> exists j :: 0 <= j < |clusters| && clusters[j].1 > 40.0)
      && (forall k :: 0 <= k < |r| && r[k].Diversify? ==>
            k == 0 && r[k].percent > 40.0 && IsFirstMax(clusters, (r[k].cluster, r[k].percent)))
  {
    DiversifyRuleIff(a.portfolio.clusters);
    var r := RecommendedRules(a);
    var d := DiversifyRule(a.portfolio.clusters);
    var th := TakeProfitRule(a.positions) + HedgeRule(a.portfolio.bias);
    assert r == d + th;
    assert forall k :: 0 <= k < |th| ==> !th[k].Diversify?;
    forall k | |d| <= k < |r|
      ensures !r[k].Diversify?
    {
      assert r[k] == th[k - |d|];
    }
    if d != [] {
      assert r[0] == d[0];
    }
  }

  /** A take-profits entry appears iff some position is in profit by more
      than 100, and it counts exactly those positions. */
  lemma TakeProfitsIff(a: Analysis)
    ensures
      var r := RecommendedRules(a);
      && ((exists k :: 0 <= k < |r| && r[k].TakeProfits?) <==>
            exists i :: 0 <= i < |a.positions| && IsBigWinner(a.positions[i]))
      && (forall k :: 0 <= k < |r| && r[k].TakeProfits? ==> r[k].count == |Filter(a.positions, IsBigWinner)|)
  {
    FilterEmptyIff(a.positions, IsBigWinner);
    var r := RecommendedRules(a);
    var d := DiversifyRule(a.portfolio.clusters);
    var t := TakeProfitRule(a.positions);
    assert r == d + t + HedgeRule(a.portfolio.bias);
    assert forall k :: 0 <= k < |r| && r[k].TakeProfits? ==> |d| <= k < |d| + |t| && r[k] == t[k - |d|];
    if t != [] {
      assert r[|d|] == t[0];
    }
  }

  /** A hedge entry appears iff the portfolio is long or short biased, and
      it proposes the opposite direction. */
  lemma HedgeIff(a: Analysis)
    ensures
      var r := RecommendedRules(a);
      var bias := a.portfolio.bias;
      && ((exists k :: 0 <= k < |r| && r[k].Hedge?) <==> bias != Neutral)
      && (forall k :: 0 <= k < |r| && r[k].Hedge? ==>
            r[k].bias == bias && r[k].opposite == Mirror(bias) && r[k].opposite != bias)
  {
    var r := RecommendedRules(a);
    var h := HedgeRule(a.portfolio.bias);
    var dt := DiversifyRule(a.portfolio.clusters) + TakeProfitRule(a.positions);
    assert r == dt + h;
    assert forall k :: 0 <= k < |r| && r[k].Hedge? ==> |dt| <= k && r[k] == h[k - |dt|];
    if h != [] {
      assert r[|dt|] == h[0];
    }
  }

  /** The optional reminders before the balanced message is added: stop losses iff some position is at medium or
      high leverage; a review of losers iff some position is down by more
      than 100, counting them; a leverage caution iff more than three
      positions are high-leverage. */
  lemma OptionalIff(a: Analysis)
    ensures
      var o := OptionalRules(a);
      var ps := a.positions;
      && (TightenStopLosses in o <==> exists i :: 0 <= i < |ps| && UsesLeverage(ps[i]))
      && ((exists k :: 0 <= k < |o| && o[k].ReviewLosing?) <==> exists i :: 0 <= i < |ps| && IsBigLoser(ps[i]))
      && (forall k :: 0 <= k < |o| && o[k].ReviewLosing? ==> o[k].count == |Filter(ps, IsBigLoser)|)
      && (ReduceOverallLeverage in o <==> a.risks.highLeverageCount > 3)
  {
    FilterEmptyIff(a.positions, IsBigLoser);
    var o := OptionalRules(a);
    var sl := StopLossRule(a.positions);
    var lr := LosingRule(a.positions);
    var lc := LeverageCautionRule(a.risks);
    assert o == sl + lr + lc;
    assert forall k :: 0 <= k < |sl| ==> o[k] == TightenStopLosses;
    assert forall k :: |sl| <= k < |sl| + |lr| ==> o[k] == lr[k - |sl|];
    assert forall k :: |sl| + |lr| <= k < |o| ==> o[k] == ReduceOverallLeverage;
    if lr != [] {
      assert o[|sl|] == lr[0];
    }
  }

  /** The result is never empty: the balanced message appears exactly when
      no rule fired, and then it is the only entry. */
  lemma KeepMonitoringIff(a: Analysis)
    ensures
      var s := Fallback(a);
      && (KeepMonitoring in s.optional <==>
            UrgentRules(a.positions) == [] && RecommendedRules(a) == [] && OptionalRules(a) == [])
      && (KeepMonitoring in s.optional ==> s.urgent == [] && s.recommended == [] && s.optional == [KeepMonitoring])
  {
    NothingRecommendedIsCut(a);
  }

  // ---------------------------------------------------------------------
  // The imperative rule engine
  // ---------------------------------------------------------------------

  /** The two urgent loops of `_fallback_analysis`. */
  method UrgentSuggestions(positions: seq<Position>) returns (urgent: seq<Suggestion>)
    ensures urgent == UrgentRules(positions)
  {
    urgent := [];

    // URGENT: positions close to liquidation
    var closeLiqPositions := Filter(positions, IsNearLiquidation);
    for i := 0 to |closeLiqPositions|
      invariant |urgent| == i
      invariant forall k :: 0 <= k < i ==> urgent[k] == CloseOut(closeLiqPositions[k])
    {
      urgent := urgent + [CloseOut(closeLiqPositions[i])];
    }

    // URGENT: the first two high-leverage positions
    var highLevPositions := Take(Filter(positions, IsOverLeveraged), LeverageEntries);
    for i := 0 to |highLevPositions|
      invariant |urgent| == |closeLiqPositions| + i
      invariant forall k :: 0 <= k < |closeLiqPositions| ==> urgent[k] == CloseOut(closeLiqPositions[k])
      invariant forall k :: 0 <= k < i ==> urgent[|closeLiqPositions| + k] == Deleverage(highLevPositions[k])
    {
      urgent := urgent + [Deleverage(highLevPositions[i])];
    }
    ghost var spec := UrgentRules(positions);
    assert |spec| == |urgent|;
    assert forall k :: 0 <= k < |urgent| ==> spec[k] == urgent[k];
  }

  /** The three recommended checks of `_fallback_analysis`. */
  method RecommendedSuggestions(a: Analysis) returns (recommended: seq<Suggestion>)
    ensures recommended == RecommendedRules(a)
  {
    recommended := [];

    // RECOMMENDED: cluster concentration
    if a.portfolio.clusters != [] {
      var maxCluster := MaxByValue(a.portfolio.clusters);
      if maxCluster.1 > 40.0 {
        recommended := recommended + [Diversify(maxCluster.0, maxCluster.1)];
      }
    }
    assert recommended == DiversifyRule(a.portfolio.clusters);

    // RECOMMENDED: take profits
    var profitablePositions := Filter(a.positions, IsBigWinner);
    if profitablePositions != [] {
      recommended := recommended + [TakeProfits(|profitablePositions|)];
    }

    // RECOMMENDED: portfolio bias
    if a.portfolio.bias == Long || a.portfolio.bias == Short {
      var opposite := if a.portfolio.bias == Long then Short else Long;
      recommended := recommended + [Hedge(a.portfolio.bias, opposite)];
    }
  }

  /** The three optional checks of `_fallback_analysis`. */
  method OptionalSuggestions(a: Analysis) returns (optional: seq<Suggestion>)
    ensures optional == OptionalRules(a)
  {
    optional := [];

    // OPTIONAL: stop losses
    if exists i :: 0 <= i < |a.positions| && UsesLeverage(a.positions[i]) {
      optional := optional + [TightenStopLosses];
    }

    // OPTIONAL: losing positions
    var losingPositions := Filter(a.positions, IsBigLoser);
    if losingPositions != [] {
      optional := optional + [ReviewLosing(|losingPositions|)];
    }

    // OPTIONAL: general risk management
    if a.risks.highLeverageCount > 3 {
      optional := optional + [ReduceOverallLeverage];
    }
  }

  /** `_fallback_analysis`. */
  method FallbackAnalysis(a: Analysis) returns (s: Suggestions)
    ensures s == Fallback(a)
  {
    var urgent := UrgentSuggestions(a.positions);
    var recommended := RecommendedSuggestions(a);
    var optional := OptionalSuggestions(a);
    if urgent == [] && recommended == [] && optional == [] {
      optional := optional + [KeepMonitoring];
    }
    s := Suggestions(Take(urgent, BucketCap), Take(recommended, BucketCap), Take(optional, BucketCap));
  }

  /** `analyze_with_ai`. The OpenAI call itself is outside the model: its
      outcome is `aiReply`, `None` when the request or the parsing of its
      reply failed. */
  method AnalyzeWithAi(a: Analysis, openAiKey: Option<string>, aiReply: Option<Suggestions>) returns (s: Suggestions)
    ensures !Config.HasOpenAi(openAiKey) ==> s == Fallback(a)
    ensures Config.HasOpenAi(openAiKey) && aiReply.None? ==> s == Fallback(a)
    ensures Config.HasOpenAi(openAiKey) && aiReply.Some? ==> s == aiReply.value
  {
    if Config.HasOpenAi(openAiKey) {
      if aiReply.Some? {
        return aiReply.value;
      }
      s := FallbackAnalysis(a);
    } else {
      s := FallbackAnalysis(a);
    }
  }
}
