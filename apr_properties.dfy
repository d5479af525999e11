/** Properties of the APR derivation: the worked scenarios, signs, defaults,
    which fields are read, and which requests the result depends on. */
module AprProperties {
  import opened Responses
  import opened AprCalculator

  /** Volume 500000 with the default 0.3% fee over a TVL of 1000000:
      1500 of daily fees, 547500 a year, 54.75%. */
  lemma SwapAprScenario()
    ensures SwapAprOf(map[VolumeField := 500000.0], map[TvlField := 1000000.0]) == 54.75
  {
    var stats := map[VolumeField := 500000.0];
    var poolInfo := map[TvlField := 1000000.0];
    assert VolumeField in stats && TvlField in poolInfo;
    assert stats != Failed && poolInfo != Failed;
    assert Get(stats, VolumeField, 0.0) == 500000.0;
    assert Get(poolInfo, TvlField, 0.0) == 1000000.0;
    assert FeeField != TvlField by { assert FeeField[0] != TvlField[0]; }
    assert Get(poolInfo, FeeField, DefaultFeePercentage) == 0.003;
    assert 500000.0 * 0.003 == 1500.0;
    assert 1500.0 * DaysPerYear == 547500.0;
    assert 547500.0 / 1000000.0 == 0.5475;
  }

  /** 1000 reward tokens a day at 2 USD over a TVL of 200000:
      2000 USD a day, 730000 a year, 365%. */
  lemma FarmAprScenario()
    ensures FarmAprOf(map[RewardPriceField := 2.0, RewardsPerDayField := 1000.0, TvlField := 200000.0]) == 365.0
  {
  }

  lemma SwapAprNonNegative(stats: Response, poolInfo: Response)
    requires Get(stats, VolumeField, 0.0) >= 0.0
    requires Get(poolInfo, FeeField, DefaultFeePercentage) >= 0.0 && Get(poolInfo, TvlField, 0.0) >= 0.0
    ensures SwapAprOf(stats, poolInfo) >= 0.0
  {
  }

  lemma FarmAprNonNegative(farmInfo: Response)
    requires Get(farmInfo, RewardPriceField, 0.0) >= 0.0 && Get(farmInfo, RewardsPerDayField, 0.0) >= 0.0
    requires Get(farmInfo, TvlField, 0.0) >= 0.0
    ensures FarmAprOf(farmInfo) >= 0.0
  {
  }

  /** Only a TVL equal to 0 is guarded: a negative TVL goes through the
      formula and turns positive volume and fee into a negative swap APR. */
  lemma SwapAprNegativeTvl(stats: Response, poolInfo: Response)
    requires Get(stats, VolumeField, 0.0) > 0.0 && Get(poolInfo, FeeField, DefaultFeePercentage) > 0.0
    requires Get(poolInfo, TvlField, 0.0) < 0.0
    ensures SwapAprOf(stats, poolInfo) < 0.0
  {
  }

  /** Likewise for the farm: positive emissions over a negative TVL give a
      negative farm APR. */
  lemma FarmAprNegativeTvl(farmInfo: Response)
    requires Get(farmInfo, RewardPriceField, 0.0) > 0.0 && Get(farmInfo, RewardsPerDayField, 0.0) > 0.0
    requires Get(farmInfo, TvlField, 0.0) < 0.0
    ensures FarmAprOf(farmInfo) < 0.0
  {
  }

  /** Non-negative fees and emissions do not make the APRs non-negative:
      there are responses, negative only in their TVL, for which each APR is
      negative. */
  lemma NegativeTvlNotGuarded()
    ensures exists stats: Response, poolInfo: Response ::
      NonNegative(stats) && NonNegative(poolInfo - {TvlField})
      && Get(poolInfo, FeeField, DefaultFeePercentage) > 0.0 && SwapAprOf(stats, poolInfo) < 0.0
    ensures exists farmInfo: Response ::
      NonNegative(farmInfo - {TvlField})
      && Get(farmInfo, RewardPriceField, 0.0) > 0.0 && Get(farmInfo, RewardsPerDayField, 0.0) > 0.0
      && FarmAprOf(farmInfo) < 0.0
  {
    var stats := map[VolumeField := 1000.0];
    var poolInfo := map[TvlField := -1000.0];
    assert FeeField != TvlField by { assert FeeField[0] != TvlField[0]; }
    SwapAprNegativeTvl(stats, poolInfo);
    var farmInfo := map[RewardPriceField := 1.0, RewardsPerDayField := 1.0, TvlField := -1.0];
    FarmAprNegativeTvl(farmInfo);
  }

  lemma SwapAprDefaults(stats: Response, poolInfo: Response)
    ensures VolumeField !in stats ==> SwapAprOf(stats[VolumeField := 0.0], poolInfo) == SwapAprOf(stats, poolInfo)
    ensures FeeField !in poolInfo ==>
      SwapAprOf(stats, poolInfo[FeeField := DefaultFeePercentage]) == SwapAprOf(stats, poolInfo)
    ensures TvlField !in poolInfo ==> SwapAprOf(stats, poolInfo[TvlField := 0.0]) == SwapAprOf(stats, poolInfo)
  {
  }

  lemma FarmAprDefaults(farmInfo: Response)
    ensures RewardPriceField !in farmInfo ==> FarmAprOf(farmInfo[RewardPriceField := 0.0]) == FarmAprOf(farmInfo)
    ensures RewardsPerDayField !in farmInfo ==> FarmAprOf(farmInfo[RewardsPerDayField := 0.0]) == FarmAprOf(farmInfo)
    ensures TvlField !in farmInfo ==> FarmAprOf(farmInfo[TvlField := 0.0]) == FarmAprOf(farmInfo)
  {
  }

  /** Besides the emptiness of each response, the swap APR reads nothing but
      the (defaulted) volume, fee and TVL fields. */
  lemma SwapAprReadsOnlyItsFields(stats1: Response, poolInfo1: Response, stats2: Response, poolInfo2: Response)
    requires (stats1 == Failed) == (stats2 == Failed) && (poolInfo1 == Failed) == (poolInfo2 == Failed)
    requires Get(stats1, VolumeField, 0.0) == Get(stats2, VolumeField, 0.0)
    requires Get(poolInfo1, FeeField, DefaultFeePercentage) == Get(poolInfo2, FeeField, DefaultFeePercentage)
    requires Get(poolInfo1, TvlField, 0.0) == Get(poolInfo2, TvlField, 0.0)
    ensures SwapAprOf(stats1, poolInfo1) == SwapAprOf(stats2, poolInfo2)
  {
  }

  /** Besides its emptiness, the farm APR reads nothing but the (defaulted)
      price, emission and TVL fields. */
  lemma FarmAprReadsOnlyItsFields(farmInfo1: Response, farmInfo2: Response)
    requires (farmInfo1 == Failed) == (farmInfo2 == Failed)
    requires Get(farmInfo1, RewardPriceField, 0.0) == Get(farmInfo2, RewardPriceField, 0.0)
    requires Get(farmInfo1, RewardsPerDayField, 0.0) == Get(farmInfo2, RewardsPerDayField, 0.0)
    requires Get(farmInfo1, TvlField, 0.0) == Get(farmInfo2, TvlField, 0.0)
    ensures FarmAprOf(farmInfo1) == FarmAprOf(farmInfo2)
  {
  }

  /** Without a truthy farm address, what the farm endpoint would answer has
      no effect: the farm APR is 0 and the total is the swap APR. */
  lemma FarmIgnoredWithoutAddress(fetch1: Fetcher, fetch2: Fetcher, pair: string, farm: Option<string>)
    requires !Truthy(farm)
    requires forall r: Request :: !r.FarmInfo? ==> fetch1(r) == fetch2(r)
    ensures TotalApr(fetch1, pair, farm) == TotalApr(fetch2, pair, farm)
    ensures TotalApr(fetch1, pair, farm).totalApr == TotalApr(fetch1, pair, farm).swapApr
  {
  }

  lemma TotalAprUsesOnlyRequested(fetch1: Fetcher, fetch2: Fetcher, pair: string, farm: Option<string>)
    requires forall r :: r in TotalRequests(pair, farm) ==> fetch1(r) == fetch2(r)
    ensures TotalApr(fetch1, pair, farm) == TotalApr(fetch2, pair, farm)
  {
  }

  /** The swap APR is a ratio of volume to TVL: scaling both by the same
      non-zero factor leaves it unchanged. */
  lemma SwapAprScaleInvariant(stats: Response, poolInfo: Response, k: real)
    requires k != 0.0
    ensures SwapAprOf(stats[VolumeField := k * Get(stats, VolumeField, 0.0)],
                      poolInfo[TvlField := k * Get(poolInfo, TvlField, 0.0)])
         == SwapAprOf(stats, poolInfo)
  {
  }

  /** With non-negative fee and a positive TVL, more volume never lowers the swap APR. */
  lemma SwapAprMonotoneInVolume(stats: Response, poolInfo: Response, volume: real)
    requires Get(stats, VolumeField, 0.0) <= volume
    requires Get(poolInfo, FeeField, DefaultFeePercentage) >= 0.0 && Get(poolInfo, TvlField, 0.0) > 0.0
    ensures SwapAprOf(stats, poolInfo) <= SwapAprOf(stats[VolumeField := volume], poolInfo)
  {
  }

  /** With non-negative emissions, a larger positive TVL never raises the farm APR. */
  lemma FarmAprDilutedByTvl(farmInfo: Response, tvl: real)
    requires Get(farmInfo, RewardPriceField, 0.0) >= 0.0 && Get(farmInfo, RewardsPerDayField, 0.0) >= 0.0
    requires 0.0 < Get(farmInfo, TvlField, 0.0) <= tvl
    ensures FarmAprOf(farmInfo[TvlField := tvl]) <= FarmAprOf(farmInfo)
  {
  }
}
