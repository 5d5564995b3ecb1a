/**
 * The weights of the two-slice chart on the main page. Readiness beats
 * privacy mode, and privacy mode beats the totals.
 */
module ChartWeights {
  import opened Options
  import opened PageState

  /** Weight of the "available" slice. */
  function AvailableChartWeight(availableTotal: Option<nat>, isPrivacyMode: bool, tab: TabStatus, isNotReady: bool): (w: nat)
    ensures isNotReady ==> w == 0
    ensures !isNotReady && isPrivacyMode ==> w <= 1 && (w == 1 <==> tab == Available)
    ensures !isNotReady && !isPrivacyMode ==> w == availableTotal.GetOr(0)
  {
    if !isNotReady && isPrivacyMode then
      if tab == Available then 1 else 0
    else
      match availableTotal
      case Some(v) => if !isNotReady then v else 0
      case None => 0
  }

  /** Weight of the "staked" slice. */
  function StakedChartWeight(stakedTotal: Option<nat>, isPrivacyMode: bool, tab: TabStatus, isNotReady: bool): (w: nat)
    ensures isNotReady ==> w == 0
    ensures !isNotReady && isPrivacyMode ==> w <= 1 && (w == 1 <==> tab == Staked)
    ensures !isNotReady && !isPrivacyMode ==> w == stakedTotal.GetOr(0)
  {
    if !isNotReady && isPrivacyMode then
      if tab == Staked then 1 else 0
    else
      match stakedTotal
      case Some(v) => if !isNotReady then v else 0
      case None => 0
  }

  /** The two weights handed to the chart, first = available, second = staked. */
  datatype Weights = Weights(first: nat, second: nat)

  function ChartWeights(availableTotal: Option<nat>, stakedTotal: Option<nat>, isPrivacyMode: bool, tab: TabStatus, isNotReady: bool): Weights {
    Weights(AvailableChartWeight(availableTotal, isPrivacyMode, tab, isNotReady),
            StakedChartWeight(stakedTotal, isPrivacyMode, tab, isNotReady))
  }

  /**
   * The chart rule read as a priority list: not ready gives (0, 0); else
   * privacy mode gives a one-hot indicator of the selected tab; else each
   * weight is its total, an absent total counting as 0.
   */
  function ResolveByPriority(availableTotal: Option<nat>, stakedTotal: Option<nat>, isPrivacyMode: bool, tab: TabStatus, ready: bool): Weights {
    if !ready then Weights(0, 0)
    else if isPrivacyMode then (if tab == Available then Weights(1, 0) else Weights(0, 1))
    else Weights(availableTotal.GetOr(0), stakedTotal.GetOr(0))
  }

  /** The page's two weight expressions implement the priority list. */
  lemma ChartFollowsPriority(availableTotal: Option<nat>, stakedTotal: Option<nat>, isPrivacyMode: bool, tab: TabStatus, isNotReady: bool)
    ensures ChartWeights(availableTotal, stakedTotal, isPrivacyMode, tab, isNotReady)
         == ResolveByPriority(availableTotal, stakedTotal, isPrivacyMode, tab, !isNotReady)
  {
  }

  /** While not ready the chart is (0, 0), whatever the mode, tab and totals. */
  lemma NotReadyChartIsEmpty(availableTotal: Option<nat>, stakedTotal: Option<nat>, isPrivacyMode: bool, tab: TabStatus)
    ensures ChartWeights(availableTotal, stakedTotal, isPrivacyMode, tab, true) == Weights(0, 0)
  {
  }

  /** Ready in privacy mode, exactly one slice has weight 1: the selected tab's. */
  lemma PrivacyModeChartIsOneHot(availableTotal: Option<nat>, stakedTotal: Option<nat>, tab: TabStatus)
    ensures ChartWeights(availableTotal, stakedTotal, true, tab, false).first
          + ChartWeights(availableTotal, stakedTotal, true, tab, false).second == 1
    ensures ChartWeights(availableTotal, stakedTotal, true, tab, false).first == 1 <==> tab == Available
  {
  }

  /** Ready with privacy mode off, the chart shows the totals, absent as 0. */
  lemma PlainChartShowsTotals(availableTotal: Option<nat>, stakedTotal: Option<nat>, tab: TabStatus)
    ensures ChartWeights(availableTotal, stakedTotal, false, tab, false)
         == Weights(availableTotal.GetOr(0), stakedTotal.GetOr(0))
    ensures availableTotal.None? && stakedTotal.None?
        ==> ChartWeights(availableTotal, stakedTotal, false, tab, false) == Weights(0, 0)
  {
  }
}
