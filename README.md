# Bybit position exposure analyzer — a Dafny model

This project models the analysis core of a bot that reads open perpetual futures positions and
orders from the Bybit exchange and reports portfolio risk. Three parts are modelled:

- **The analyzer** (`analyzer.py`). It normalizes each raw position and computes its exposure,
  its distance to the liquidation price, its PnL status, its leverage bucket and its symbol
  cluster. It then aggregates the portfolio: long and short exposure, net exposure, bias,
  per-cluster exposure percentages, high-leverage and near-liquidation counts, and a greedy
  scan for the highest-risk position.
- **The rule-based suggestion generator** (`_fallback_analysis` in `ai_analysis.py`) and the
  dispatch in `analyze_with_ai` that chooses between it and the language-model reply.
- **The configuration checks** `Config.validate` and `Config.has_openai` (`config.py`).

The Dafny files:

- `wrappers.dfy` defines `Option`.
- `seqs.dfy` models list comprehensions with a condition and slicing.
- `text.dfy` models the Python string built-ins used by the core: `strip`, `upper`, `lower`,
  `isspace` and `in`.
- `config.dfy`, `analyzer.dfy` and `ai_analysis.dfy` model the three source files.

Some helpers are given in the source's own form:

- The loops of `categorize_symbol`, `analyze_orders`, `analyze_portfolio` and
  `_fallback_analysis` are Dafny methods with loop invariants.
- Each of these methods is proved equal to a specification function, or, for the
  highest-risk scan and the whole portfolio record, to satisfy a ghost predicate
  (`IsFirstHighestRisk`, `PortfolioOf`) that fixes every field of its result.
- The lemmas state the source's promises about those functions and predicates.

Prices, sizes, leverage and PnL are exact `real`s. Python dicts with insertion order are
association lists or key sequences. Suggestions are tagged values carrying the data their
messages would print.

## Model

| member | source | states |
|---|---|---|
| Config.Validate | config.py:32-44 | Valid iff both key and secret are set and not all whitespace. A valid result has an empty message. The failure message is that of the first check that fails, in this order: key unset or `""`; secret unset or `""`; key whitespace-only; secret whitespace-only. |
| Config.HasOpenAi | config.py:47-49 | True iff the OpenAI key is set and not all whitespace. |
| Text.Strip | config.py:38-41 | `strip()` yields `""` exactly for an all-whitespace string (Python's whitespace set), and otherwise starts and ends with a non-space. |
| Text.LowerSpec | analyzer.py:69 | `lower()` gives a string with no upper-case letter, equal to its input up to case, and leaves a lower-case string unchanged. |
| Text.ContainsIff | analyzer.py:33 | The `keyword in symbol` test holds iff the keyword occurs as a contiguous substring at some index. |
| Analyzer.CategorizeSymbol | analyzer.py:19-36 | The nested scan with early return gives exactly `ClusterOf(symbol)`: the first table cluster with a keyword in the upper-cased symbol, else `OTHER`. |
| Analyzer.FirstClusterSpec | analyzer.py:31-36 | Over a table without `OTHER` entries, the first-match scan returns `OTHER` iff no entry has a matching keyword. Otherwise it returns the first entry that has one. |
| Analyzer.ClusterOfOtherIff | analyzer.py:29-36 | A symbol is `OTHER` iff no keyword of any cluster is a substring of its upper-cased form. |
| Analyzer.ClusterOfFirstMatch | analyzer.py:10-16 | A non-`OTHER` result is the first cluster, in table order, with a keyword in the upper-cased symbol. |
| Analyzer.ClusterOfIgnoresCase | analyzer.py:29 | Clustering depends only on the upper-cased symbol. Upper- or lower-casing the symbol first does not change it. |
| Analyzer.ClusterOfPriority | analyzer.py:10-12 | A symbol containing "BTC" is `BTC`. One containing "ETH" but not "BTC" is `ETH`. |
| Analyzer.ClusterOfArbusdt | analyzer.py:13 | "ARBUSDT" is `L2`. |
| Analyzer.LeverageRiskOf | analyzer.py:39-54 | Safe iff leverage < 5, medium iff 5 <= leverage <= 10, high iff leverage > 10. |
| Analyzer.LeverageRiskMonotone | analyzer.py:49-54 | More leverage never gives a lower bucket (safe < medium < high). |
| Analyzer.LiquidationDistancePct | analyzer.py:81-84 | With positive liquidation and mark prices, distance·mark = \|mark − liq\|·100. Otherwise it is exactly 100. It is never negative. |
| Analyzer.NearLiquidationIff | analyzer.py:81-84 | The distance is under 10% iff both prices are positive and \|mark − liq\|·10 < mark. |
| Analyzer.ZeroDistanceIff | analyzer.py:81-84 | The distance is 0 iff a positive liquidation price equals the mark price. These are exactly the positions the risk scan skips. |
| Analyzer.AnalyzePosition | analyzer.py:57-109 | Every field is tied to the raw record, with defaults when a field is missing: "" for strings, 0 for size, entry, mark and liquidation price and PnL, 1 for leverage. Side is lower-cased. Exposure is \|size·mark\| and is non-negative. Distance is `LiquidationDistancePct`. Profit iff PnL > 0, so zero PnL is a loss. The bucket is `LeverageRiskOf(leverage)` and the cluster is `ClusterOf(symbol)`. |
| Analyzer.NormalizeOrder | analyzer.py:124-131 | An order's fields with the same defaults. Side and type are lower-cased and agree with the input up to case. |
| Analyzer.AnalyzeOrders | analyzer.py:112-132 | Same length and order as the input. Element i is the normalized order i. |
| Analyzer.SideExposure | analyzer.py:172-177 | The summed exposure of the positions on one side. It is non-negative when every exposure is. |
| Analyzer.BiasOf | analyzer.py:181-191 | No positive total exposure gives `neutral`. The thresholds are characterised by `BiasRatio`. |
| Analyzer.BiasRatio | analyzer.py:181-191 | For non-negative exposures, `long` iff long > 1.5·short, and `short` iff short > 1.5·long. This is the 0.6 / 0.4 ratio thresholds restated; zero total exposure is neutral. |
| Analyzer.BiasSymmetric | analyzer.py:181-191 | Swapping the long and short exposures mirrors the bias. |
| Analyzer.ClustersInOrder | analyzer.py:194-197 | The dict's keys: each cluster once, exactly the clusters some position has. |
| Analyzer.ClustersInFirstAppearanceOrder | analyzer.py:194-197 | The keys are in first-appearance order: for keys i < j, a position of key i comes before every position of key j. This is the dict order the diversify tie-break depends on. |
| Analyzer.ClusterExposureAbsent | analyzer.py:197 | A cluster no position has has no exposure. `get(cluster, 0)` starts from 0. |
| Analyzer.SumClusterExposure | analyzer.py:194-197 | The dict-building loop gives keys in first-appearance order, each mapped to the summed exposure of its positions. |
| Analyzer.ToPercentages | analyzer.py:200-203 | Each key mapped to exposure/total·100, in key order. Nothing when total exposure is not positive. |
| Analyzer.DistributionFromExposure | analyzer.py:194-203 | The two loops together compute `ClusterDistribution`. |
| Analyzer.ClusterExposuresCoverAll | analyzer.py:194-197 | Summed over the dict's keys, the cluster exposures equal the exposure of all positions. |
| Analyzer.ClusterSharesSumTo100 | analyzer.py:172-203 | When every side is "buy" or "sell" and there is exposure, the cluster percentages sum to 100. |
| Analyzer.ScanHighestRisk | analyzer.py:216-226 | The score is the maximum of 100/dist·lev over positions with dist > 0, or 0 when none is positive. The position is the first one reaching it; later ties do not replace it. It is `None` iff the score is 0. |
| Analyzer.HighestRiskUnique | analyzer.py:216-226 | That description determines the scan's outcome uniquely. |
| Analyzer.EmptyPortfolioIsZeroed | analyzer.py:149-169 | For no positions and no orders, the general formulas admit only the fixed zeroed record. |
| Analyzer.AnalyzePortfolio | analyzer.py:135-247 | Every field: long and short sums over "buy"/"sell", net = long − short, bias, cluster percentages, the two counts as input lengths, total PnL, high-leverage count, near-liquidation count, highest risk. Omitted orders count as none. Empty input gives the zeroed record. |
| Analyzer.AnalyzePositions | analyzer.py:250-272 | Positions are the analyzed raw positions, in order. Orders are empty when the raw orders are absent or empty, and otherwise the normalized raw orders. The whole record is `analyze_portfolio` of those. |
| AiAnalysis.MaxByValue | ai_analysis.py:160 | `max(..., key=...)`: bounds every value and is the first entry holding the maximum. |
| AiAnalysis.Fallback | ai_analysis.py:202-209 | Every bucket has at most 4 entries, and the three buckets are never all empty. |
| AiAnalysis.NothingRecommendedIsCut | ai_analysis.py:158-209 | The recommended and optional rules give at most 3 entries each, so the cut to 4 keeps them all. |
| AiAnalysis.UrgentRulesShape | ai_analysis.py:139-156 | Before the cut, urgent holds one add-collateral entry per near-liquidation position, in order. Then come reduce-leverage entries for the first min(2, n) positions above 10x. |
| AiAnalysis.UrgentEntries | ai_analysis.py:139-206 | The urgent bucket has min(4, near + min(2, over)) entries. Entry k is the close-out of near-liquidation position k, or else of over-leveraged position k − near, with that index below 2. |
| AiAnalysis.UrgentEntriesJustified | ai_analysis.py:140-155 | Every add-collateral entry reports a distance under 10%. Every reduce-leverage entry reports leverage above 10. |
| AiAnalysis.UrgentEmptyIff | ai_analysis.py:139-156 | The urgent bucket is empty iff no position is under 10% from liquidation or above 10x leverage. |
| AiAnalysis.DiversifyRuleIff | ai_analysis.py:158-164 | The diversify rule gives one entry iff the cluster map is non-empty with some share above 40%. It names the first cluster with the largest share. |
| AiAnalysis.DiversifyIff | ai_analysis.py:158-164 | A diversify recommendation exists iff some share exceeds 40%. It comes first and names the first maximal cluster. |
| AiAnalysis.TakeProfitsIff | ai_analysis.py:166-174 | A take-profits recommendation exists iff some position is in profit with PnL > 100. It counts exactly those positions. |
| AiAnalysis.HedgeIff | ai_analysis.py:176-181 | A hedge recommendation exists iff the bias is long or short. It names the opposite direction. |
| AiAnalysis.OptionalIff | ai_analysis.py:183-199 | A stop-loss reminder iff some position is medium or high. A losers review iff some position is a loss below −100, counting them. A leverage caution iff more than 3 positions are high-leverage. |
| AiAnalysis.KeepMonitoringIff | ai_analysis.py:201-203 | The balanced message appears iff no rule fired, and then it is the only suggestion in all three buckets. |
| AiAnalysis.UrgentSuggestions | ai_analysis.py:139-156 | The two urgent loops compute exactly the urgent rules. |
| AiAnalysis.RecommendedSuggestions | ai_analysis.py:158-181 | The three recommended checks compute exactly the recommended rules. |
| AiAnalysis.OptionalSuggestions | ai_analysis.py:183-199 | The three optional checks compute exactly the optional rules. |
| AiAnalysis.FallbackAnalysis | ai_analysis.py:121-209 | `_fallback_analysis` computes exactly `Fallback`. |
| AiAnalysis.AnalyzeWithAi | ai_analysis.py:11-29 | Without an OpenAI key it returns exactly the fallback. With a key it returns the reply, or the fallback when the reply failed. |

## Left out

- **Reading settings:** loading `.env` and environment variables when `Config` is defined, and
  the warning issued when `config.py` is imported. The settings are parameters instead.
- **The OpenAI request and the parsing of its reply** (`_openai_analysis`, including the
  stripping of markdown code fences). They are network I/O. `AnalyzeWithAi` takes the outcome as
  a parameter: `None` when the call failed or its reply was not valid JSON (the case in
  which `_openai_analysis` falls back itself). A reply that parses as JSON of any other shape
  (`{}`, a list, a dict missing some of the three keys) is returned unchanged by the source and
  has no counterpart in the model, whose replies are always three suggestion lists.
- **Console output:** the warning printed when the OpenAI analysis fails.
- **Other modules:** the exchange client (`bybit_api.py`: HMAC signing, HTTP), the WebSocket
  client, the Telegram, terminal and web front ends, and the test scripts. None of them is
  part of this model.
- **String-to-float parsing:** raw records hold already-parsed numbers. A field that
  `float()` would reject (a `ValueError` for a malformed string, a `TypeError` for `None`)
  has no counterpart here.
- **Message text:** the suggestion messages and their `:.2f` / `:.1f` formatting.
  Suggestions are tagged values carrying the numbers the text would show.
- **Floating point:** rounding is not modelled; arithmetic is exact over the reals.
- **Integer and float zeros:** the empty-portfolio record in the source uses integer zeros,
  which the model does not tell apart from 0.0.
- **Non-ASCII case mapping:** `upper()` and `lower()` change ASCII letters only.
- **Fields the analyzer never produces:** `stop_loss`, `no_stop_loss_count`, `risky_positions`
  and `hedged_symbols` are read by callers but never computed here, so the model has none of
  them.
- Analyzer.AnalyzePosition: a `None` field stands for a missing key. A key present with the
  value `None` makes the source raise, and the model does not capture that: `symbol` (its
  `.upper()` in `categorize_symbol`), `side` (`.lower()`), and `size`, `avgPrice`, `markPrice`,
  `leverage` and `unrealisedPnl` (`float(None)` raises `TypeError`). Only `liqPrice` is guarded in
  the source, and there the model agrees.
- Analyzer.NormalizeOrder: likewise, an order whose `side` or `orderType` is present but `None`
  (`.lower()` raises) or whose `price` or `qty` is present but `None` (`float(None)` raises) is
  read as a missing field, and so is a `symbol` or `orderId` present as `None`, which the source
  copies through as `None`.
- Analyzer.ClusterSharesSumTo100: is stated only for portfolios where every side is "buy" or
  "sell". The cluster loop sums the exposure of every position, while the total counts only
  those two sides, so other sides with non-zero exposure push the sum above 100.
