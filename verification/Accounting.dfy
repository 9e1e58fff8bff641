/**
  Cost estimates and the soft token quota
  (saas_os/control_plane/inference/accounting.py). Amounts are exact: a cost is
  a whole number of quanta of 10^-8 currency units.
 */
module Accounting {
  import opened Common
  import opened InferenceLedger

  // --- cost -------------------------------------------------------------------------------

  /** Rates per million tokens. */
  datatype Price = Price(input: real, output: real, cached: Option<real>)

  const QUANTA := 100_000_000.0
  const MILLION := 1_000_000.0

  /** Half rounds away from zero. */
  function HalfUp(x: real): (r: int)
  {
    if x >= 0.0 then (x + 0.5).Floor else -((0.5 - x).Floor)
  }

  function CachedShare(price: Price, input: int, cached: Option<int>): (r: int)
  {
    if price.cached.None? then 0 else Min(if cached.Some? then cached.value else 0, input)
  }

  /** The exact price of a request, before rounding. */
  function TruePrice(price: Price, input: int, output: int, cached: Option<int>): (r: real)
  {
    var share := CachedShare(price, input, cached);
    PerMillion(price, input - share, output, share) / MILLION
  }

  function Times(count: int, rate: real): (r: real)
  {
    count as real * rate
  }

  function PerMillion(price: Price, plain: int, output: int, share: int): (r: real)
  {
    Times(plain, price.input) + Times(output, price.output) + if price.cached.Some?
      then Times(share, price.cached.value) else 0.0
  }

  /** `estimate_cost`, in quanta. */
  function EstimateCost(price: Option<Price>, input: Option<int>, output: Option<int>,
                        cached: Option<int>): (r: Option<int>)
  {
    if price.None? || input.None? || output.None? then None
    else Some(HalfUp(TruePrice(price.value, input.value, output.value, cached) * QUANTA))
  }

  /** Nothing is estimated exactly when a price or a count is unknown; otherwise
      the estimate is within half a quantum of the true price. */
  lemma CostIsNearest(price: Option<Price>, input: Option<int>, output: Option<int>, cached: Option<int>)
    ensures var r := EstimateCost(price, input, output, cached);
            && (r.None? <==> price.None? || input.None? || output.None?)
            && (r.Some? ==>
                  var exact := TruePrice(price.value, input.value, output.value, cached);
                  -0.5 / QUANTA <= r.value as real / QUANTA - exact <= 0.5 / QUANTA)
  {
    if price.Some? && input.Some? && output.Some? {
      var exact := TruePrice(price.value, input.value, output.value, cached);
      HalfUpNear(exact * QUANTA);
      var n := HalfUp(exact * QUANTA) as real;
      assert n / QUANTA - exact == (n - exact * QUANTA) / QUANTA;
    }
  }

  lemma HalfUpNear(x: real)
    ensures -0.5 <= HalfUp(x) as real - x <= 0.5
  {
  }

  lemma HalfUpMonotone(x: real, y: real)
    requires x <= y
    ensures HalfUp(x) <= HalfUp(y)
  {
    if x < 0.0 <= y {
      assert (0.5 - x).Floor >= 0 && (y + 0.5).Floor >= 0;
    }
  }

  predicate NonNegative(price: Price)
  {
    price.input >= 0.0 && price.output >= 0.0 && (price.cached.Some? ==> price.cached.value >= 0.0)
  }

  lemma Scaled(x: real, y: real, rate: real)
    requires x <= y && rate >= 0.0
    ensures x * rate <= y * rate
  {
  }

  lemma TimesUp(a: int, b: int, rate: real)
    requires a <= b && rate >= 0.0
    ensures Times(a, rate) <= Times(b, rate)
  {
    Scaled(a as real, b as real, rate);
  }

  lemma PerMillionMonotone(price: Price, plain: int, plain': int, output: int, output': int, share: int, share': int)
    requires NonNegative(price) && plain <= plain' && output <= output' && share <= share'
    ensures PerMillion(price, plain, output, share) <= PerMillion(price, plain', output', share')
  {
    TimesUp(plain, plain', price.input);
    TimesUp(output, output', price.output);
    if price.cached.Some? {
      TimesUp(share, share', price.cached.value);
    }
  }

  /** More input or more output never costs less. */
  lemma CostIsMonotone(price: Price, input: int, input': int, output: int, output': int, cached: Option<int>)
    requires NonNegative(price) && input <= input' && output <= output'
    ensures EstimateCost(Some(price), Some(input), Some(output), cached).value
         <= EstimateCost(Some(price), Some(input'), Some(output'), cached).value
  {
    var share, share' := CachedShare(price, input, cached), CachedShare(price, input', cached);
    PerMillionMonotone(price, input - share, input' - share', output, output', share, share');
    var x, x' := TruePrice(price, input, output, cached), TruePrice(price, input', output', cached);
    HalfUpMonotone(x * QUANTA, x' * QUANTA);
  }

  lemma Distributes(x: real, y: real, r: real, q: real)
    ensures (x - y) * r == x * r - y * r && x * (r - q) == x * r - x * q
  {
  }

  lemma TimesMoved(plain: int, share: int, moved: int, ri: real, rc: real)
    ensures Times(plain - moved, ri) + Times(share + moved, rc) == Times(plain, ri) + Times(share, rc)
            + Times(moved, rc - ri)
  {
    Distributes(plain as real, moved as real, ri, rc);
    Distributes(share as real, -(moved as real), rc, ri);
    Distributes(moved as real, 0.0, rc, ri);
  }

  /** More cached input moves tokens from one rate to the other: the exact price
      changes by the difference of the rates for each token moved. */
  lemma CachedMovesTokens(price: Price, input: int, output: int, cached: int, cached': int)
    requires price.cached.Some?
    ensures var moved := CachedShare(price, input, Some(cached')) - CachedShare(price, input, Some(cached));
            TruePrice(price, input, output, Some(cached'))
            == TruePrice(price, input, output, Some(cached)) + Times(moved, price.cached.value - price.input) / MILLION
  {
    var a, b := CachedShare(price, input, Some(cached)), CachedShare(price, input, Some(cached'));
    TimesMoved(input - a, a, b - a, price.input, price.cached.value);
  }

  lemma TimesNegative(count: int, rate: real)
    requires count >= 0 && rate <= 0.0
    ensures Times(count, rate) <= 0.0
  {
    Scaled(0.0, count as real, -rate);
  }

  /** More cached input never costs more, whatever the counts, if and only if
      the cached rate is at most the input rate (or there is none). */
  lemma CachingSavesExactlyWhenCheaper(price: Price)
    ensures (forall input: int, output: int, cached: int, cached': int :: cached <= cached' ==>
               TruePrice(price, input, output, Some(cached')) <= TruePrice(price, input, output, Some(cached)))
            <==> (price.cached.None? || price.cached.value <= price.input)
  {
    if price.cached.Some? {
      if price.cached.value <= price.input {
        forall input: int, output: int, cached: int, cached': int | cached <= cached'
          ensures TruePrice(price, input, output, Some(cached')) <= TruePrice(price, input, output, Some(cached))
        {
          CachedMovesTokens(price, input, output, cached, cached');
          var moved := CachedShare(price, input, Some(cached')) - CachedShare(price, input, Some(cached));
          TimesNegative(moved, price.cached.value - price.input);
        }
      } else {
        CachedMovesTokens(price, 1, 0, 0, 1);
        assert TruePrice(price, 1, 0, Some(1)) > TruePrice(price, 1, 0, Some(0));
      }
    }
  }

  lemma CachedEstimateNeverRises(price: Price, input: int, output: int, cached: int, cached': int)
    requires price.cached.None? || price.cached.value <= price.input
    requires cached <= cached'
    ensures EstimateCost(Some(price), Some(input), Some(output), Some(cached')).value
         <= EstimateCost(Some(price), Some(input), Some(output), Some(cached)).value
  {
    CachingSavesExactlyWhenCheaper(price);
    HalfUpMonotone(TruePrice(price, input, output, Some(cached')) * QUANTA,
                   TruePrice(price, input, output, Some(cached)) * QUANTA);
  }

  // --- the soft token quota ---------------------------------------------------------------------

  /** What a plan holds under `ai.tokens`. */
  datatype Entitlement = Absent | Whole(value: int) | Boolean(flag: bool) | OtherType

  datatype QuotaError = QuotaInvalid | QuotaUnavailable | QuotaNotConfigured | MonthlyTokenQuota

  function Limit(e: Entitlement): (r: Result<Option<int>, QuotaError>)
  {
    match e
    case Absent => Ok(None)
    case Whole(n) => if n < 0 then Err(QuotaInvalid) else Ok(Some(n))
    case Boolean(_) => Err(QuotaInvalid)
    case OtherType => Err(QuotaInvalid)
  }

  function Projection(inputBytes: nat, maxOutputTokens: int): (r: int)
  {
    Estimate(inputBytes) + maxOutputTokens
  }

  /** `check_soft_token_quota`: `None` admits. An unreadable entitlement or
      ledger is `None` on the way in. */
  function CheckQuota(granted: Option<Entitlement>, required: bool, used: Option<int>, inputBytes: nat,
                      maxOutputTokens: int): (r: Option<QuotaError>)
  {
    if granted.None? then Some(QuotaUnavailable)
    else if Limit(granted.value).Err? then Some(Limit(granted.value).error)
    else if Limit(granted.value).value.None? then (if required then Some(QuotaNotConfigured) else None)
    else if used.None? then Some(QuotaUnavailable)
    else if used.value + Projection(inputBytes, maxOutputTokens) > Limit(granted.value).value.value
      then Some(MonthlyTokenQuota)
    else None
  }

  /** A request is admitted exactly when the plan is readable and either sets no
      limit where none is required, or sets one the projection fits: a typo, an
      unreadable plan or ledger never admits. */
  lemma AdmittedExactly(granted: Option<Entitlement>, required: bool, used: Option<int>, inputBytes: nat,
                        maxOutputTokens: int)
    ensures CheckQuota(granted, required, used, inputBytes, maxOutputTokens).None? <==>
            || (granted == Some(Absent) && !required)
            || (exists limit: nat :: granted == Some(Whole(limit)) && used.Some?
                                     && used.value + Projection(inputBytes, maxOutputTokens) <= limit)
  {
    if granted.Some? && granted.value.Whole? && granted.value.value >= 0 {
      var limit: nat := granted.value.value;
      assert granted == Some(Whole(limit));
    }
  }

  /** Usage estimated from bytes stays within the projection exactly while the
      text does not exceed four bytes a token of the allowance. */
  lemma EstimatedUsageFits(inputBytes: nat, textBytes: nat, maxOutputTokens: int)
    ensures Estimate(inputBytes) + Estimate(textBytes) <= Projection(inputBytes, maxOutputTokens)
            <==> maxOutputTokens >= 1 && textBytes <= 4 * maxOutputTokens
  {
  }
}
