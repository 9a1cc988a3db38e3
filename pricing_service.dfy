/**
 * The pricing service: the adjusted nightly price of a room type, and the
 * competitor adjustment derived from competitors' historical prices.
 * Competitor records are an input; reading them from the CSV file is not
 * part of this model.
 */
module PricingService {
  import opened Wrappers
  import opened Models
  import opened Rounding

  /** The exceptions the service throws: ArgumentNullException and ArgumentException. */
  datatype Error =
    | ArgumentNull(paramName: string)
    | InvalidArgument(message: string, paramName: string)

  /** The nightly base price of each room type the service knows. */
  const BasePrices: map<string, real> := map["Standard" := 90.0, "Deluxe" := 140.0, "Suite" := 240.0]

  /** The seasonality factor of each season string that has one. */
  const SeasonalityFactors: map<string, real> := map["Off-Season" := -0.20, "Peak Season" := 0.30]

  const MinCompetitorAdjustment: real := -0.10
  const MaxCompetitorAdjustment: real := 0.10

  /** Dictionary.GetValueOrDefault. */
  function GetValueOrDefault(m: map<string, real>, key: string, default: real): (v: real) {
    if key in m then m[key] else default
  }

  /** The seasonality factor of a season; a season without an entry has factor 0. */
  function SeasonalityFactor(season: string): (f: real)
    ensures f == (if season == "Off-Season" then -0.20
                  else if season == "Peak Season" then 0.30
                  else 0.0)
  {
    GetValueOrDefault(SeasonalityFactors, season, 0.0)
  }

  /** The occupancy factor: -0.10 up to 30, 0 up to 70, +0.20 above. */
  function GetOccupancyRateFactor(occupancyRate: int): (f: real)
    ensures f == -0.10 || f == 0.0 || f == 0.20
    ensures f == -0.10 <==> occupancyRate <= 30
    ensures f == 0.20 <==> occupancyRate > 70
  {
    if occupancyRate <= 30 then -0.10
    else if occupancyRate <= 70 then 0.00
    else 0.20
  }

  /** A higher occupancy rate never gives a lower factor. */
  lemma OccupancyRateFactorMonotone(a: int, b: int)
    requires a <= b
    ensures GetOccupancyRateFactor(a) <= GetOccupancyRateFactor(b)
  {
  }

  /**
   * Whether a competitor record lies in the request's occupancy band. The
   * first disjunct of the pricing service's test is subsumed by the second, so the test
   * is "both at most 70, or both above 70".
   */
  function IsPriceInOccupancyRange(cp: CompetitorPriceRecord, occupancyRate: int): (b: bool)
    ensures b <==> (occupancyRate <= 70 <==> cp.occupancyRate <= 70)
  {
    (occupancyRate <= 30 && cp.occupancyRate <= 30) ||
    (occupancyRate <= 70 && cp.occupancyRate <= 70) ||
    (occupancyRate > 70 && cp.occupancyRate > 70)
  }

  /** The unrounded adjusted price. */
  function ExactAdjustedPrice(basePrice: real, request: PricingRequest, competitorAdjustment: real): (p: real) {
    basePrice * (1.0 + SeasonalityFactor(request.season)
                     + GetOccupancyRateFactor(request.occupancyRate)
                     + competitorAdjustment)
  }

  /**
   * CalculateAdjustedPrice: a null request and an unknown room type throw;
   * otherwise the response echoes the room type and its base price, and the
   * adjusted price is the exact price rounded to whole cents.
   */
  function CalculateAdjustedPrice(request: Option<PricingRequest>, competitorAdjustment: real)
    : (r: Result<PricingResponse, Error>)
    ensures request.None? ==> r == Failure(ArgumentNull("request"))
    ensures request.Some? && request.value.roomType !in {"Standard", "Deluxe", "Suite"} ==>
              r == Failure(InvalidArgument("Invalid room type", "RoomType"))
    ensures r.Success? <==> request.Some? && request.value.roomType in {"Standard", "Deluxe", "Suite"}
    ensures r.Success? ==>
              && r.value.roomType == request.value.roomType
              && r.value.basePrice == BasePrices[request.value.roomType]
              && r.value.adjustedPrice == RoundTo2(ExactAdjustedPrice(r.value.basePrice, request.value, competitorAdjustment))
              && IsWholeCents(r.value.adjustedPrice)
              && -0.005 <= r.value.adjustedPrice - ExactAdjustedPrice(r.value.basePrice, request.value, competitorAdjustment) <= 0.005
  {
    match request
    case None => Failure(ArgumentNull("request"))
    case Some(req) =>
      if req.roomType !in BasePrices then
        Failure(InvalidArgument("Invalid room type", "RoomType"))
      else
        var basePrice := BasePrices[req.roomType];
        var exact := ExactAdjustedPrice(basePrice, req, competitorAdjustment);
        Success(PricingResponse(req.roomType, basePrice, RoundTo2(exact)))
  }

  /** A higher occupancy rate never lowers the adjusted price. */
  lemma AdjustedPriceMonotoneInOccupancy(request: PricingRequest, higher: int, competitorAdjustment: real)
    requires request.occupancyRate <= higher
    requires request.roomType in BasePrices
    ensures CalculateAdjustedPrice(Some(request), competitorAdjustment).Success?
    ensures CalculateAdjustedPrice(Some(request.(occupancyRate := higher)), competitorAdjustment).Success?
    ensures CalculateAdjustedPrice(Some(request), competitorAdjustment).value.adjustedPrice
            <= CalculateAdjustedPrice(Some(request.(occupancyRate := higher)), competitorAdjustment).value.adjustedPrice
  {
    var b := BasePrices[request.roomType];
    OccupancyRateFactorMonotone(request.occupancyRate, higher);
    MultiplyMonotone(b, 1.0 + SeasonalityFactor(request.season) + GetOccupancyRateFactor(request.occupancyRate) + competitorAdjustment,
                        1.0 + SeasonalityFactor(request.season) + GetOccupancyRateFactor(higher) + competitorAdjustment);
    RoundTo2Monotone(ExactAdjustedPrice(b, request, competitorAdjustment),
                     ExactAdjustedPrice(b, request.(occupancyRate := higher), competitorAdjustment));
  }

  /** A larger competitor adjustment never lowers the adjusted price. */
  lemma AdjustedPriceMonotoneInCompetitorAdjustment(request: PricingRequest, low: real, high: real)
    requires low <= high
    requires request.roomType in BasePrices
    ensures CalculateAdjustedPrice(Some(request), low).Success?
    ensures CalculateAdjustedPrice(Some(request), high).Success?
    ensures CalculateAdjustedPrice(Some(request), low).value.adjustedPrice
            <= CalculateAdjustedPrice(Some(request), high).value.adjustedPrice
  {
    var b := BasePrices[request.roomType];
    var rest := 1.0 + SeasonalityFactor(request.season) + GetOccupancyRateFactor(request.occupancyRate);
    MultiplyMonotone(b, rest + low, rest + high);
    RoundTo2Monotone(ExactAdjustedPrice(b, request, low), ExactAdjustedPrice(b, request, high));
  }

  /** Off-season prices are never above those of an unlisted season, which are never above peak-season prices. */
  lemma AdjustedPriceOrderedBySeason(request: PricingRequest, other: string, competitorAdjustment: real)
    requires request.roomType in BasePrices
    requires other !in SeasonalityFactors
    ensures var off := CalculateAdjustedPrice(Some(request.(season := "Off-Season")), competitorAdjustment);
            var mid := CalculateAdjustedPrice(Some(request.(season := other)), competitorAdjustment);
            var peak := CalculateAdjustedPrice(Some(request.(season := "Peak Season")), competitorAdjustment);
            && off.Success? && mid.Success? && peak.Success?
            && off.value.adjustedPrice <= mid.value.adjustedPrice <= peak.value.adjustedPrice
  {
    var b := BasePrices[request.roomType];
    var rest := GetOccupancyRateFactor(request.occupancyRate) + competitorAdjustment;
    MultiplyMonotone(b, 1.0 - 0.20 + rest, 1.0 + rest);
    MultiplyMonotone(b, 1.0 + rest, 1.0 + 0.30 + rest);
    RoundTo2Monotone(ExactAdjustedPrice(b, request.(season := "Off-Season"), competitorAdjustment),
                     ExactAdjustedPrice(b, request.(season := other), competitorAdjustment));
    RoundTo2Monotone(ExactAdjustedPrice(b, request.(season := other), competitorAdjustment),
                     ExactAdjustedPrice(b, request.(season := "Peak Season"), competitorAdjustment));
  }

  lemma MultiplyMonotone(b: real, x: real, y: real)
    requires 0.0 <= b && x <= y
    ensures b * x <= b * y
  {
  }

  /** Deluxe in peak season at 50% occupancy with a 0.05 adjustment costs 140 * 1.35 = 189. */
  lemma CalculateAdjustedPriceExample()
    ensures CalculateAdjustedPrice(Some(PricingRequest("Deluxe", "Peak Season", 50, [])), 0.05)
            == Success(PricingResponse("Deluxe", 140.0, 189.0))
  {
    assert ExactAdjustedPrice(140.0, PricingRequest("Deluxe", "Peak Season", 50, []), 0.05) == 18900 as real / 100.0;
    RoundTo2OfCents(18900);
  }

  /** An unknown room type is rejected. */
  lemma CalculateAdjustedPriceInvalidRoomType()
    ensures CalculateAdjustedPrice(Some(PricingRequest("Invalid", "Off-Season", 50, [])), 0.05)
            == Failure(InvalidArgument("Invalid room type", "RoomType"))
  {
  }

  // ---------------------------------------------------------------------------
  // Competitor adjustment
  // ---------------------------------------------------------------------------

  /**
   * The record filter of GetCompetitorAdjustment: a record counts exactly when
   * its room type and season are the request's, it lies on the same side of 70
   * as the request's occupancy rate, and its competitor is one the request names.
   */
  function MatchesRequest(cp: CompetitorPriceRecord, request: PricingRequest): (b: bool)
    ensures b <==> && cp.roomType == request.roomType
                   && cp.season == request.season
                   && (request.occupancyRate <= 70 <==> cp.occupancyRate <= 70)
                   && cp.competitor in request.competitorPrices
  {
    && cp.roomType == request.roomType
    && cp.season == request.season
    && IsPriceInOccupancyRange(cp, request.occupancyRate)
    && cp.competitor in request.competitorPrices
  }

  /** The record filter of GetCompetitorAdjustmentAutamatcly; it keeps every record the full filter keeps. */
  function MatchesRoomAndSeason(cp: CompetitorPriceRecord, request: PricingRequest): (b: bool)
    ensures MatchesRequest(cp, request) ==> b
  {
    cp.roomType == request.roomType && cp.season == request.season
  }

  /** The number of records `keep` accepts. */
  function CountKept(records: seq<CompetitorPriceRecord>, keep: CompetitorPriceRecord -> bool): (n: nat)
    ensures n <= |records|
  {
    if records == [] then 0
    else (if keep(records[0]) then 1 else 0) + CountKept(records[1..], keep)
  }

  /** Where(keep).Select(cp => cp.BasePrice): the base prices of the kept records, in order, one per kept record. */
  function FilteredPrices(records: seq<CompetitorPriceRecord>, keep: CompetitorPriceRecord -> bool): (prices: seq<real>)
    ensures |prices| == CountKept(records, keep)
  {
    if records == [] then []
    else (if keep(records[0]) then [records[0].basePrice] else []) + FilteredPrices(records[1..], keep)
  }

  /** A price is selected exactly when some kept record carries it. */
  lemma {:induction false} FilteredPricesMembers(records: seq<CompetitorPriceRecord>, keep: CompetitorPriceRecord -> bool, p: real)
    ensures p in FilteredPrices(records, keep) <==>
            exists i :: 0 <= i < |records| && keep(records[i]) && records[i].basePrice == p
  {
    if records != [] {
      FilteredPricesMembers(records[1..], keep, p);
      if p in FilteredPrices(records[1..], keep) {
        var i :| 0 <= i < |records[1..]| && keep(records[1..][i]) && records[1..][i].basePrice == p;
        assert keep(records[i + 1]) && records[i + 1].basePrice == p;
      }
      if exists i :: 0 <= i < |records| && keep(records[i]) && records[i].basePrice == p {
        var i :| 0 <= i < |records| && keep(records[i]) && records[i].basePrice == p;
        if i > 0 {
          assert records[1..][i - 1] == records[i];
        }
      }
    }
  }

  /** Nothing is selected exactly when no record is kept. */
  lemma {:induction false} FilteredPricesEmpty(records: seq<CompetitorPriceRecord>, keep: CompetitorPriceRecord -> bool)
    ensures FilteredPrices(records, keep) == [] <==> forall i :: 0 <= i < |records| ==> !keep(records[i])
  {
    if records != [] {
      FilteredPricesEmpty(records[1..], keep);
      assert forall i :: 1 <= i < |records| ==> records[i] == records[1..][i - 1];
    }
  }

  /** Two filters that agree on every record select the same prices. */
  lemma {:induction false} FilteredPricesAgree(records: seq<CompetitorPriceRecord>, k1: CompetitorPriceRecord -> bool, k2: CompetitorPriceRecord -> bool)
    requires forall i :: 0 <= i < |records| ==> k1(records[i]) == k2(records[i])
    ensures FilteredPrices(records, k1) == FilteredPrices(records, k2)
  {
    if records != [] {
      assert forall i :: 1 <= i < |records| ==> records[i] == records[1..][i - 1];
      FilteredPricesAgree(records[1..], k1, k2);
    }
  }

  function Sum(xs: seq<real>): (s: real) {
    if xs == [] then 0.0 else xs[0] + Sum(xs[1..])
  }

  /** The mean of the prices (Enumerable.Average), or 0 when there are none. */
  function AverageOrZero(xs: seq<real>): (avg: real)
    ensures xs == [] ==> avg == 0.0
    ensures xs != [] ==> avg * |xs| as real == Sum(xs)
  {
    if |xs| > 0 then Sum(xs) / |xs| as real else 0.0
  }

  lemma {:induction false} SumBounds(xs: seq<real>, lo: real, hi: real)
    requires forall i :: 0 <= i < |xs| ==> lo <= xs[i] <= hi
    ensures |xs| as real * lo <= Sum(xs) <= |xs| as real * hi
  {
    if xs != [] {
      var rest := xs[1..];
      assert forall i :: 0 <= i < |rest| ==> rest[i] == xs[i + 1];
      SumBounds(rest, lo, hi);
      var m := |rest| as real;
      assert Sum(xs) == xs[0] + Sum(rest);
      assert |xs| as real * lo == lo + m * lo;
      assert |xs| as real * hi == hi + m * hi;
    }
  }

  /** The mean of prices between two bounds lies between them. */
  lemma AverageBounds(xs: seq<real>, lo: real, hi: real)
    requires |xs| > 0
    requires forall i :: 0 <= i < |xs| ==> lo <= xs[i] <= hi
    ensures lo <= AverageOrZero(xs) <= hi
  {
    SumBounds(xs, lo, hi);
    var n := |xs| as real;
    assert Sum(xs) / n >= lo by { assert Sum(xs) >= n * lo; }
    assert Sum(xs) / n <= hi by { assert Sum(xs) <= n * hi; }
  }

  /**
   * The relative difference between the competitors' mean price and the base
   * price, with the pricing service's defaults: for an unknown room type the
   * base is taken as 0 in the numerator and 1 in the denominator, so the ratio
   * is the mean itself. A mean that is not positive gives 0.
   */
  function CompetitorRatio(averagePrice: real, roomType: string): (ratio: real)
    ensures averagePrice <= 0.0 ==> ratio == 0.0
    ensures averagePrice > 0.0 && roomType in BasePrices ==>
              ratio * BasePrices[roomType] == averagePrice - BasePrices[roomType]
    ensures averagePrice > 0.0 && roomType !in BasePrices ==> ratio == averagePrice
  {
    if averagePrice > 0.0 then
      (averagePrice - GetValueOrDefault(BasePrices, roomType, 0.0)) / GetValueOrDefault(BasePrices, roomType, 1.0)
    else 0.0
  }

  /** Math.Clamp. */
  function Clamp(x: real, lo: real, hi: real): (r: real)
    requires lo <= hi
    ensures lo <= r <= hi
    ensures lo <= x <= hi ==> r == x
    ensures r == x || (x < lo && r == lo) || (x > hi && r == hi)
  {
    if x < lo then lo else if x > hi then hi else x
  }

  /**
   * The ratio rounded to the nearest tenth (ties to even), clamped to
   * [-0.10, 0.10]. The result is +0.1 above a ratio of 0.05, -0.1 below -0.05,
   * and 0 in between, both ends included.
   */
  function AdjustmentFromRatio(ratio: real): (adj: real)
    ensures adj == 0.1 <==> ratio > 0.05
    ensures adj == -0.1 <==> ratio < -0.05
    ensures adj == 0.0 <==> -0.05 <= ratio <= 0.05
  {
    var rounded := RoundHalfEven(ratio * 10.0);
    RoundedTenthsSign(ratio * 10.0);
    Clamp(rounded as real / 10.0, MinCompetitorAdjustment, MaxCompetitorAdjustment)
  }

  lemma RoundedTenthsSign(x: real)
    ensures RoundHalfEven(x) >= 1 <==> x > 0.5
    ensures RoundHalfEven(x) <= -1 <==> x < -0.5
  {
    var n := RoundHalfEven(x);
    if x == 0.5 {
      RoundHalfEvenUnique(x, 0);
    } else if x == -0.5 {
      RoundHalfEvenUnique(x, 0);
    }
  }

  /** The adjustment from the mean competitor price, as both variants compute it. */
  function AdjustmentFromAverage(averagePrice: real, roomType: string): (adj: real)
    ensures adj == -0.1 || adj == 0.0 || adj == 0.1
  {
    AdjustmentFromRatio(CompetitorRatio(averagePrice, roomType))
  }

  /**
   * For a known room type with base price b: +0.1 when the mean exceeds 1.05 b,
   * -0.1 when it is positive and below 0.95 b, 0 otherwise.
   */
  lemma AdjustmentAgainstBasePrice(averagePrice: real, roomType: string)
    requires roomType in BasePrices
    ensures var b := BasePrices[roomType];
            && (AdjustmentFromAverage(averagePrice, roomType) == 0.1 <==> averagePrice > 1.05 * b)
            && (AdjustmentFromAverage(averagePrice, roomType) == -0.1 <==> 0.0 < averagePrice < 0.95 * b)
  {
    var b := BasePrices[roomType];
    if averagePrice > 0.0 {
      var ratio := (averagePrice - b) / b;
      assert ratio > 0.05 <==> averagePrice > 1.05 * b by {
        assert ratio * b == averagePrice - b;
      }
      assert ratio < -0.05 <==> averagePrice < 0.95 * b by {
        assert ratio * b == averagePrice - b;
      }
    }
  }

  /**
   * For a room type without a base price the ratio is the mean itself: a mean
   * above 0.05 gives +0.1, and a positive mean up to 0.05 gives 0.
   */
  lemma AdjustmentForUnknownRoomType(averagePrice: real, roomType: string)
    requires roomType !in BasePrices
    ensures averagePrice > 0.05 ==> AdjustmentFromAverage(averagePrice, roomType) == 0.1
    ensures averagePrice <= 0.05 ==> AdjustmentFromAverage(averagePrice, roomType) == 0.0
  {
  }

  /** A mean of 100 for the unknown type "Penthouse" gives +0.1. */
  lemma AdjustmentForUnknownRoomTypeExample()
    ensures AdjustmentFromAverage(100.0, "Penthouse") == 0.1
  {
    AdjustmentForUnknownRoomType(100.0, "Penthouse");
  }

  /**
   * GetCompetitorAdjustment: throws on a null record list or request; otherwise
   * the adjustment is one of -0.1, 0 and 0.1, within the clamp bounds.
   */
  function GetCompetitorAdjustment(competitorPrices: Option<seq<CompetitorPriceRecord>>, request: Option<PricingRequest>)
    : (r: Result<real, Error>)
    ensures competitorPrices.None? ==> r == Failure(ArgumentNull("competitorPrices"))
    ensures competitorPrices.Some? && request.None? ==> r == Failure(ArgumentNull("request"))
    ensures r.Success? <==> competitorPrices.Some? && request.Some?
    ensures r.Success? ==> MinCompetitorAdjustment <= r.value <= MaxCompetitorAdjustment
    ensures r.Success? ==> r.value == -0.1 || r.value == 0.0 || r.value == 0.1
  {
    if competitorPrices.None? then Failure(ArgumentNull("competitorPrices"))
    else if request.None? then Failure(ArgumentNull("request"))
    else
      var req := request.value;
      var prices := FilteredPrices(competitorPrices.value, cp => MatchesRequest(cp, req));
      Success(AdjustmentFromAverage(AverageOrZero(prices), req.roomType))
  }

  /** GetCompetitorAdjustmentAutamatcly: the same, keeping every record of the request's room type and season. */
  function GetCompetitorAdjustmentAutamatcly(competitorPrices: Option<seq<CompetitorPriceRecord>>, request: Option<PricingRequest>)
    : (r: Result<real, Error>)
    ensures competitorPrices.None? ==> r == Failure(ArgumentNull("competitorPrices"))
    ensures competitorPrices.Some? && request.None? ==> r == Failure(ArgumentNull("request"))
    ensures r.Success? <==> competitorPrices.Some? && request.Some?
    ensures r.Success? ==> MinCompetitorAdjustment <= r.value <= MaxCompetitorAdjustment
    ensures r.Success? ==> r.value == -0.1 || r.value == 0.0 || r.value == 0.1
  {
    if competitorPrices.None? then Failure(ArgumentNull("competitorPrices"))
    else if request.None? then Failure(ArgumentNull("request"))
    else
      var req := request.value;
      var prices := FilteredPrices(competitorPrices.value, cp => MatchesRoomAndSeason(cp, req));
      Success(AdjustmentFromAverage(AverageOrZero(prices), req.roomType))
  }

  /** The sign rule of GetCompetitorAdjustment, in terms of the selected records' mean price. */
  lemma CompetitorAdjustmentSignRule(records: seq<CompetitorPriceRecord>, request: PricingRequest)
    ensures var adj := GetCompetitorAdjustment(Some(records), Some(request)).value;
            var ratio := CompetitorRatio(AverageOrZero(FilteredPrices(records, cp => MatchesRequest(cp, request))), request.roomType);
            && (adj == 0.1 <==> ratio > 0.05)
            && (adj == -0.1 <==> ratio < -0.05)
            && (adj == 0.0 <==> -0.05 <= ratio <= 0.05)
  {
  }

  /** The sign rule of GetCompetitorAdjustmentAutamatcly. */
  lemma CompetitorAdjustmentAutamatclySignRule(records: seq<CompetitorPriceRecord>, request: PricingRequest)
    ensures var adj := GetCompetitorAdjustmentAutamatcly(Some(records), Some(request)).value;
            var ratio := CompetitorRatio(AverageOrZero(FilteredPrices(records, cp => MatchesRoomAndSeason(cp, request))), request.roomType);
            && (adj == 0.1 <==> ratio > 0.05)
            && (adj == -0.1 <==> ratio < -0.05)
            && (adj == 0.0 <==> -0.05 <= ratio <= 0.05)
  {
  }

  /** With no record passing the filter, GetCompetitorAdjustment is 0. */
  lemma CompetitorAdjustmentNoMatch(records: seq<CompetitorPriceRecord>, request: PricingRequest)
    requires forall i :: 0 <= i < |records| ==> !MatchesRequest(records[i], request)
    ensures GetCompetitorAdjustment(Some(records), Some(request)) == Success(0.0)
  {
    FilteredPricesEmpty(records, cp => MatchesRequest(cp, request));
  }

  /** With no record of the room type and season, GetCompetitorAdjustmentAutamatcly is 0. */
  lemma CompetitorAdjustmentAutamatclyNoMatch(records: seq<CompetitorPriceRecord>, request: PricingRequest)
    requires forall i :: 0 <= i < |records| ==> !MatchesRoomAndSeason(records[i], request)
    ensures GetCompetitorAdjustmentAutamatcly(Some(records), Some(request)) == Success(0.0)
  {
    FilteredPricesEmpty(records, cp => MatchesRoomAndSeason(cp, request));
  }

  /** When every selected price is at most 0, the mean is not positive and both variants give 0. */
  lemma CompetitorAdjustmentNonPositivePrices(records: seq<CompetitorPriceRecord>, request: PricingRequest)
    requires forall i :: 0 <= i < |records| ==> records[i].basePrice <= 0.0
    ensures GetCompetitorAdjustment(Some(records), Some(request)) == Success(0.0)
    ensures GetCompetitorAdjustmentAutamatcly(Some(records), Some(request)) == Success(0.0)
  {
    NonPositiveMean(records, cp => MatchesRequest(cp, request));
    NonPositiveMean(records, cp => MatchesRoomAndSeason(cp, request));
  }

  /** Whenever the mean of the prices GetCompetitorAdjustment selects is not positive, it gives 0. */
  lemma CompetitorAdjustmentNonPositiveMean(records: seq<CompetitorPriceRecord>, request: PricingRequest)
    requires AverageOrZero(FilteredPrices(records, cp => MatchesRequest(cp, request))) <= 0.0
    ensures GetCompetitorAdjustment(Some(records), Some(request)) == Success(0.0)
  {
  }

  /** Whenever the mean of the prices GetCompetitorAdjustmentAutamatcly selects is not positive, it gives 0. */
  lemma CompetitorAdjustmentAutamatclyNonPositiveMean(records: seq<CompetitorPriceRecord>, request: PricingRequest)
    requires AverageOrZero(FilteredPrices(records, cp => MatchesRoomAndSeason(cp, request))) <= 0.0
    ensures GetCompetitorAdjustmentAutamatcly(Some(records), Some(request)) == Success(0.0)
  {
  }

  lemma NonPositiveMean(records: seq<CompetitorPriceRecord>, keep: CompetitorPriceRecord -> bool)
    requires forall i :: 0 <= i < |records| ==> records[i].basePrice <= 0.0
    ensures AverageOrZero(FilteredPrices(records, keep)) <= 0.0
  {
    var prices := FilteredPrices(records, keep);
    if |prices| > 0 {
      forall j | 0 <= j < |prices| ensures prices[j] <= 0.0 {
        FilteredPricesMembers(records, keep, prices[j]);
      }
      AverageBounds(prices, MinimumOf(prices), 0.0);
    }
  }

  function MinimumOf(xs: seq<real>): (m: real)
    requires |xs| > 0
    ensures forall i :: 0 <= i < |xs| ==> m <= xs[i]
  {
    if |xs| == 1 then xs[0]
    else
      var rest := MinimumOf(xs[1..]);
      assert forall i :: 1 <= i < |xs| ==> xs[i] == xs[1..][i - 1];
      if xs[0] <= rest then xs[0] else rest
  }

  /**
   * The two variants agree whenever every record of the request's room type
   * and season also passes the occupancy-band and competitor-name tests.
   */
  lemma AutamatclyAgreesWhenFiltersCoincide(records: seq<CompetitorPriceRecord>, request: PricingRequest)
    requires forall i :: 0 <= i < |records| && MatchesRoomAndSeason(records[i], request) ==> MatchesRequest(records[i], request)
    ensures GetCompetitorAdjustmentAutamatcly(Some(records), Some(request)) == GetCompetitorAdjustment(Some(records), Some(request))
  {
    FilteredPricesAgree(records, cp => MatchesRoomAndSeason(cp, request), cp => MatchesRequest(cp, request));
  }

  /** Two Deluxe peak-season records at 120 and 130: their mean 125 is below 0.95 * 140, so the adjustment is -0.1. */
  lemma CompetitorAdjustmentExample()
    ensures var records := [
              CompetitorPriceRecord("", "", "Deluxe", "Peak Season", 50, 120.0, "Example", 0, false, ""),
              CompetitorPriceRecord("", "", "Deluxe", "Peak Season", 50, 130.0, "Example", 0, false, "")];
            GetCompetitorAdjustment(Some(records), Some(PricingRequest("Deluxe", "Peak Season", 50, ["Example"])))
            == Success(-0.1)
  {
    var records := [
      CompetitorPriceRecord("", "", "Deluxe", "Peak Season", 50, 120.0, "Example", 0, false, ""),
      CompetitorPriceRecord("", "", "Deluxe", "Peak Season", 50, 130.0, "Example", 0, false, "")];
    var request := PricingRequest("Deluxe", "Peak Season", 50, ["Example"]);
    var prices := FilteredPrices(records, cp => MatchesRequest(cp, request));
    assert records[1..][1..] == [];
    assert prices == [120.0, 130.0];
    assert Sum(prices) == 120.0 + Sum([130.0]) == 250.0 by {
      assert prices[1..] == [130.0] && [130.0][1..] == [];
    }
    assert AverageOrZero(prices) == 125.0;
    AdjustmentAgainstBasePrice(125.0, "Deluxe");
  }

  /** An empty record list gives 0. */
  lemma CompetitorAdjustmentEmptyExample(request: PricingRequest)
    ensures GetCompetitorAdjustment(Some([]), Some(request)) == Success(0.0)
  {
  }
}
