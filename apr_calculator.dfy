/** The APR derivation of the xExchange calculator: swap-fee APR from a pool's
    daily volume, fee and TVL; farm APR from a farm's reward emissions and TVL;
    and their total. The HTTP layer is a parameter `fetch` that maps each request
    to its parsed response, the empty map standing for a failed request. */
module AprCalculator {
  import opened Responses

  /** Days in a year, used to annualise daily figures. */
  const DaysPerYear: real := 365.0
  /** A ratio times this constant is a percentage. */
  const Percent: real := 100.0
  /** Pool fee assumed when the pair response has no `fee_percentage` (0.3%). */
  const DefaultFeePercentage: real := 0.003
  /** Width, in days, of the date window of the stats request. */
  const StatsWindowDays: nat := 7

  const VolumeField: string := "volume_24h"
  const FeeField: string := "fee_percentage"
  const TvlField: string := "tvl_usd"
  const RewardPriceField: string := "reward_token_price"
  const RewardsPerDayField: string := "rewards_per_day"

  /** A GET request to one of the three read endpoints, with the address it
      passes as query parameter. The stats request also carries the width of its
      date window; the calendar dates themselves come from the clock. */
  datatype Request =
    | PoolInfo(pair: string)
    | FarmInfo(farm: string)
    | PoolStats(pair: string, days: nat)

  /** The endpoint table: the path each kind of request is sent to. */
  function Path(r: Request): (path: string)
    ensures (path == "/pairs") == r.PoolInfo?
    ensures (path == "/farm") == r.FarmInfo?
    ensures (path == "/stats") == r.PoolStats?
  {
    match r
    case PoolInfo(_) => "/pairs"
    case FarmInfo(_) => "/farm"
    case PoolStats(_, _) => "/stats"
  }

  /** What the fetcher answers to each request; `Failed` on any failure. */
  type Fetcher = Request -> Response

  /** The three figures the calculator reports, as percentages. */
  datatype AprResult = AprResult(swapApr: real, farmApr: real, totalApr: real)

  /** Swap APR from a stats response and a pair response: both must be
      non-empty and the TVL non-zero, and then the APR is the percentage of the
      TVL that a year of fees at today's volume represents. */
  function SwapAprOf(stats: Response, poolInfo: Response): (apr: real)
    ensures stats == Failed || poolInfo == Failed ==> apr == 0.0
    ensures Get(poolInfo, TvlField, 0.0) == 0.0 ==> apr == 0.0
    ensures stats != Failed && poolInfo != Failed && Get(poolInfo, TvlField, 0.0) != 0.0 ==>
      apr * Get(poolInfo, TvlField, 0.0)
        == Get(stats, VolumeField, 0.0) * Get(poolInfo, FeeField, DefaultFeePercentage) * DaysPerYear * Percent
  {
    if stats == Failed || poolInfo == Failed then 0.0
    else
      var dailyVolume := Get(stats, VolumeField, 0.0);
      var feePercentage := Get(poolInfo, FeeField, DefaultFeePercentage);
      var tvl := Get(poolInfo, TvlField, 0.0);
      if tvl == 0.0 then 0.0
      else
        var dailyFees := dailyVolume * feePercentage;
        var annualFees := dailyFees * DaysPerYear;
        (annualFees / tvl) * Percent
  }

  /** Farm APR from a farm response: it must be non-empty and the TVL non-zero,
      and then the APR is the percentage of the TVL that a year of reward
      emissions, valued in USD, represents. */
  function FarmAprOf(farmInfo: Response): (apr: real)
    ensures farmInfo == Failed ==> apr == 0.0
    ensures Get(farmInfo, TvlField, 0.0) == 0.0 ==> apr == 0.0
    ensures farmInfo != Failed && Get(farmInfo, TvlField, 0.0) != 0.0 ==>
      apr * Get(farmInfo, TvlField, 0.0)
        == Get(farmInfo, RewardsPerDayField, 0.0) * Get(farmInfo, RewardPriceField, 0.0) * DaysPerYear * Percent
  {
    if farmInfo == Failed then 0.0
    else
      var rewardTokenPrice := Get(farmInfo, RewardPriceField, 0.0);
      var rewardsPerDay := Get(farmInfo, RewardsPerDayField, 0.0);
      var tvl := Get(farmInfo, TvlField, 0.0);
      if tvl == 0.0 then 0.0
      else
        var dailyRewardsUsd := rewardsPerDay * rewardTokenPrice;
        var annualRewardsUsd := dailyRewardsUsd * DaysPerYear;
        (annualRewardsUsd / tvl) * Percent
  }

  /** `calculate_swap_apr`: fetch the 7-day stats and the pair info, then derive. */
  function SwapApr(fetch: Fetcher, pair: string): (apr: real)
    ensures fetch(PoolStats(pair, StatsWindowDays)) == Failed || fetch(PoolInfo(pair)) == Failed ==> apr == 0.0
    ensures apr == SwapAprOf(fetch(PoolStats(pair, StatsWindowDays)), fetch(PoolInfo(pair)))
  {
    SwapAprOf(fetch(PoolStats(pair, StatsWindowDays)), fetch(PoolInfo(pair)))
  }

  /** `calculate_farm_apr`: fetch the farm info, then derive. */
  function FarmApr(fetch: Fetcher, farm: string): (apr: real)
    ensures fetch(FarmInfo(farm)) == Failed ==> apr == 0.0
    ensures apr == FarmAprOf(fetch(FarmInfo(farm)))
  {
    FarmAprOf(fetch(FarmInfo(farm)))
  }

  /** `get_total_apr`: the swap APR, the farm APR when a farm address is given
      (a truthy one), and their sum. */
  function TotalApr(fetch: Fetcher, pair: string, farm: Option<string>): (r: AprResult)
    ensures r.totalApr == r.swapApr + r.farmApr
    ensures r.swapApr == SwapAprOf(fetch(PoolStats(pair, StatsWindowDays)), fetch(PoolInfo(pair)))
    ensures !Truthy(farm) ==> r.farmApr == 0.0
    ensures Truthy(farm) ==> r.farmApr == FarmAprOf(fetch(FarmInfo(farm.value)))
  {
    var swapApr := SwapApr(fetch, pair);
    var farmApr := if Truthy(farm) then FarmApr(fetch, farm.value) else 0.0;
    AprResult(swapApr, farmApr, swapApr + farmApr)
  }

  /** The requests `get_total_apr` issues, in order: stats and pair info for
      the swap APR, then farm info only when the farm address is truthy. */
  function TotalRequests(pair: string, farm: Option<string>): (reqs: seq<Request>)
    ensures PoolStats(pair, StatsWindowDays) in reqs && PoolInfo(pair) in reqs
    ensures Truthy(farm) ==> FarmInfo(farm.value) in reqs
    ensures forall r :: r in reqs && Path(r) == "/farm" ==> Truthy(farm) && r == FarmInfo(farm.value)
    ensures forall r :: r in reqs <==>
      r == PoolStats(pair, StatsWindowDays) || r == PoolInfo(pair) || (Truthy(farm) && r == FarmInfo(farm.value))
    ensures |reqs| == if Truthy(farm) then 3 else 2
    ensures reqs[0] == PoolStats(pair, StatsWindowDays) && reqs[1] == PoolInfo(pair)
  {
    [PoolStats(pair, StatsWindowDays), PoolInfo(pair)]
      + (if Truthy(farm) then [FarmInfo(farm.value)] else [])
  }
}
