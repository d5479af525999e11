# xExchange APR calculator — Dafny model

This project models the APR derivation of the xExchange yield calculator
(`XExchangeAPRCalculator` in `xexchange-compute-apr.py`). The calculator reads
three endpoints of the exchange API:

- pool stats over a 7-day window, for `volume_24h`;
- pair info, for `fee_percentage` and `tvl_usd`;
- farm info, for `reward_token_price`, `rewards_per_day` and `tvl_usd`.

From these it derives a swap-fee APR, a farm-reward APR and their total, all as
percentages.

- `responses.dfy` (module `Responses`): a parsed response is a
  `map<string, real>`. A failed request gives the empty map (`Failed`). `Get`
  is `dict.get` with a default. `Truthy` is the truthiness of an optional farm
  address: `None` and `""` are falsy.
- `apr_calculator.dfy` (module `AprCalculator`): the HTTP layer is a
  parameter `fetch: Request -> Response`. `Request` names the endpoint and its
  address, and `Path` is the endpoint table. `SwapAprOf` and `FarmAprOf`
  are the arithmetic of `calculate_swap_apr` and `calculate_farm_apr` over
  the fetched responses. `SwapApr` and `FarmApr` fetch and then derive.
  `TotalApr` is `get_total_apr`. `TotalRequests` lists the requests
  `get_total_apr` issues, in order.
- `apr_properties.dfy` (module `AprProperties`): the worked scenarios, signs,
  defaults, which fields are read, and which requests the result depends on.

Numbers are exact reals. A zero TVL gives an APR of 0 instead of a division.
A missing field behaves exactly like the field present with its default value,
even when the response is empty. Every field defaults to 0 except
`fee_percentage`, which defaults to 0.003. So a missing volume, price, emission
or TVL cannot be told apart from a zero one, and a failed fetch cannot be told
apart from a zero TVL: both give an APR of 0.

## Model

| member | source | states |
|---|---|---|
| `Responses.Get` | xexchange-compute-apr.py:56-58 | `dict.get`: the field's value when the key is present, the given default otherwise |
| `Responses.Truthy` | xexchange-compute-apr.py:103 | `None` and the empty string are falsy; every non-empty address is truthy |
| `AprCalculator.Path` | xexchange-compute-apr.py:9-13 | the endpoint table: pair-info requests go to `/pairs`, farm-info requests to `/farm`, stats requests to `/stats`, and each path belongs to exactly one kind of request |
| `AprCalculator.SwapApr` | xexchange-compute-apr.py:47-72 | fetches the 7-day stats and the pair info for the pair; 0 when either request fails; otherwise the swap APR of the two responses |
| `AprCalculator.FarmApr` | xexchange-compute-apr.py:74-98 | fetches the farm info for the farm; 0 when the request fails; otherwise the farm APR of the response |
| `AprCalculator.SwapAprOf` | xexchange-compute-apr.py:52-72 | 0 when the stats or the pair response is empty, or when the TVL (default 0) is 0; otherwise the APR, taken as a percentage of the TVL, equals a year of fees: volume (default 0) × fee (default 0.003) × 365 × 100 |
| `AprCalculator.FarmAprOf` | xexchange-compute-apr.py:78-98 | 0 when the farm response is empty or its TVL (default 0) is 0; otherwise the APR, taken as a percentage of the TVL, equals a year of emissions in USD: rewards per day × token price (both default 0) × 365 × 100 |
| `AprCalculator.TotalApr` | xexchange-compute-apr.py:100-109 | the total is exactly swap APR + farm APR; the swap APR comes from the 7-day stats and pair-info responses; the farm APR is 0 without a truthy farm address, otherwise it is derived from that farm's response |
| `AprCalculator.TotalRequests` | xexchange-compute-apr.py:100-103 | the list holds exactly these requests, each once: the 7-day stats request for the pair first, then its pair-info request, then the farm-info request for the address, included only when the address is truthy; every request to the `/farm` endpoint is that farm-info request |
| `AprProperties.SwapAprScenario` | xexchange-compute-apr.py:56-72 | volume 500000, no fee field (so 0.3%), TVL 1000000 give a swap APR of 54.75 |
| `AprProperties.FarmAprScenario` | xexchange-compute-apr.py:82-98 | token price 2, 1000 rewards a day, TVL 200000 give a farm APR of 365 |
| `AprProperties.SwapAprNonNegative` | xexchange-compute-apr.py:56-72 | when the fields it reads (volume, fee and TVL, after defaults) are non-negative, the swap APR is non-negative, whatever the other fields hold |
| `AprProperties.FarmAprNonNegative` | xexchange-compute-apr.py:82-98 | when the fields it reads (price, emissions and TVL, after defaults) are non-negative, the farm APR is non-negative, whatever the other fields hold |
| `AprProperties.SwapAprNegativeTvl` | xexchange-compute-apr.py:58-61 | only a TVL equal to 0 is guarded: a negative TVL with positive volume and fee gives a negative swap APR |
| `AprProperties.FarmAprNegativeTvl` | xexchange-compute-apr.py:84-87 | only a farm TVL equal to 0 is guarded: a negative TVL with positive price and emissions gives a negative farm APR |
| `AprProperties.NegativeTvlNotGuarded` | xexchange-compute-apr.py:60-61 | there exist a stats response with no negative field and a pair response with a positive fee whose only negative field is the TVL, with a negative swap APR; and a farm response with positive price and emissions whose only negative field is the TVL, with a negative farm APR |
| `AprProperties.SwapAprScaleInvariant` | xexchange-compute-apr.py:64-70 | scaling the volume and the TVL by the same non-zero factor leaves the swap APR unchanged, so the APR depends only on their ratio |
| `AprProperties.SwapAprMonotoneInVolume` | xexchange-compute-apr.py:64-70 | with a non-negative fee and a positive TVL, a higher daily volume never gives a lower swap APR |
| `AprProperties.FarmAprDilutedByTvl` | xexchange-compute-apr.py:90-96 | with non-negative price and emissions, a larger positive TVL never gives a higher farm APR |
| `AprProperties.SwapAprDefaults` | xexchange-compute-apr.py:56-58 | an absent `volume_24h`, `fee_percentage` or `tvl_usd` gives the same APR as the field present with its default (0, 0.003, 0), the empty response included |
| `AprProperties.FarmAprDefaults` | xexchange-compute-apr.py:82-84 | an absent `reward_token_price`, `rewards_per_day` or `tvl_usd` gives the same APR as the field present with value 0, the empty response included |
| `AprProperties.SwapAprReadsOnlyItsFields` | xexchange-compute-apr.py:52-58 | two pairs of responses that agree on emptiness and on the defaulted volume, fee and TVL give the same swap APR; every other field is ignored |
| `AprProperties.FarmAprReadsOnlyItsFields` | xexchange-compute-apr.py:78-84 | two farm responses that agree on emptiness and on the defaulted price, emission and TVL give the same farm APR |
| `AprProperties.FarmIgnoredWithoutAddress` | xexchange-compute-apr.py:103 | with a falsy farm address, changing any farm-info answer leaves the result unchanged, and the total equals the swap APR |
| `AprProperties.TotalAprUsesOnlyRequested` | xexchange-compute-apr.py:100-109 | two fetchers that agree on every request in `TotalRequests` give the same result, so the result depends on nothing that is not requested |

## Left out

- `_make_request` (xexchange-compute-apr.py:15-23): the GET itself, `raise_for_status`, catching the request exception and printing it. Only the observable result is kept: the fetcher's answer, which is `Failed` (the empty map) on failure.
- `get_pool_info`, `get_farm_info` and `get_pool_stats` (xexchange-compute-apr.py:25-45) are kept only as the `Request` values they send. The query-parameter dictionaries are not modelled. The stats window's calendar dates come from `datetime.now()`, so only its width (7 days) is kept. The window does not enter the arithmetic, which reads only `volume_24h`.
- `main` (xexchange-compute-apr.py:111-128): hard-coded addresses and printing with two decimals. This is presentation only.
- Floating point: the formulas are over exact reals. IEEE rounding of the Python floats is not modelled.
- Malformed responses are not modelled: a JSON body that is not an object, or a non-numeric value (`null`, a string) in one of the five fields the calculator reads (`volume_24h`, `fee_percentage`, `tvl_usd`, `reward_token_price`, `rewards_per_day`). Python would raise or misbehave on these. A non-numeric value in any other field changes nothing, since those fields are never read; the model covers such a response by giving that field any number.
- Repeated calls with the same addresses and the same responses give the same result. This holds by construction, because every operation is a function, so there is no separate lemma for it.
