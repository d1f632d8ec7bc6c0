/** The client for the admin service's taxonomy endpoint: a category list cached for
    thirty minutes, strict validation of every response, and a forced refresh. The HTTP
    exchange is an input of each call; the clock reading is a parameter. */
module AdminClient {
  import opened Wrappers
  import opened Time
  import opened EnhancedService

  /** Thirty minutes, in nanoseconds. */
  const CACHE_DURATION: int := 30 * 60 * 1_000_000_000

  /** The payload of a response: the category rows (null when absent). */
  datatype AdminData = AdminData(data: Option<seq<CategoryData>>)

  /** The response body. */
  datatype AdminApiResponse = AdminApiResponse(success: bool, message: Option<string>, data: Option<AdminData>)

  /** What one GET of the category endpoint gives: a body (null when empty), or a
      transport error from the HTTP client. */
  datatype Exchange =
    | Delivered(body: Option<AdminApiResponse>)
    | TransportError(message: string)

  /** The failures callAdminApiStrict reports, one per validation step. */
  datatype AdminError =
    | NoResponse                          // null body
    | Unsuccessful(serverMessage: Option<string>) // success = false, with the server's message
    | NoData                              // null data
    | NoCategories                        // null or empty category list
    | CallFailed(message: string)         // the HTTP client's own exception, rethrown as is

  /** The validation of callAdminApiStrict: the category list of a well-formed,
      successful, non-empty response, or the error of the first check that fails. */
  function Validate(exchange: Exchange): (r: Result<seq<CategoryData>, AdminError>)
    ensures r.Success? <==>
      exchange.Delivered? && exchange.body.Some? && exchange.body.value.success &&
      exchange.body.value.data.Some? && exchange.body.value.data.value.data.Some? &&
      |exchange.body.value.data.value.data.value| > 0
    ensures r.Success? ==> r.value == exchange.body.value.data.value.data.value && |r.value| > 0
    ensures exchange.TransportError? ==> r == Failure(CallFailed(exchange.message))
    ensures exchange == Delivered(None) ==> r == Failure(NoResponse)
    ensures exchange.Delivered? && exchange.body.Some? && !exchange.body.value.success ==>
      r == Failure(Unsuccessful(exchange.body.value.message))
  {
    match exchange
    case TransportError(message) => Failure(CallFailed(message))
    case Delivered(None) => Failure(NoResponse)
    case Delivered(Some(response)) =>
      if !response.success then Failure(Unsuccessful(response.message))
      else if response.data.None? then Failure(NoData)
      else match response.data.value.data
        case None => Failure(NoCategories)
        case Some(categories) =>
          if |categories| == 0 then Failure(NoCategories) else Success(categories)
  }

  /** Every rejected response is rejected with its own error. */
  lemma ValidationErrorsDistinct(message: Option<string>, rows: seq<CategoryData>)
    ensures Validate(Delivered(None)) == Failure(NoResponse)
    ensures Validate(Delivered(Some(AdminApiResponse(false, message, Some(AdminData(Some(rows))))))) == Failure(Unsuccessful(message))
    ensures Validate(Delivered(Some(AdminApiResponse(true, message, None)))) == Failure(NoData)
    ensures Validate(Delivered(Some(AdminApiResponse(true, message, Some(AdminData(None)))))) == Failure(NoCategories)
    ensures Validate(Delivered(Some(AdminApiResponse(true, message, Some(AdminData(Some([]))))))) == Failure(NoCategories)
    ensures |rows| > 0 ==> Validate(Delivered(Some(AdminApiResponse(true, message, Some(AdminData(Some(rows))))))) == Success(rows)
  {
  }

  /** isCacheValid on the two fields: both set and less than thirty minutes old. */
  predicate CacheValid(cached: Option<seq<CategoryData>>, lastUpdate: Option<DateTime>, now: DateTime) {
    cached.Some? && lastUpdate.Some? && Nanos(now) - Nanos(lastUpdate.value) < CACHE_DURATION
  }

  /** The time-to-live is strict: an entry is valid up to one nanosecond before the thirty
      minutes are up and invalid from then on. */
  lemma {:induction false} CacheExpiresAfterThirtyMinutes(cached: seq<CategoryData>, lastUpdate: DateTime, now: DateTime)
    requires IsValid(lastUpdate) && IsValid(now)
    ensures CacheValid(Some(cached), Some(lastUpdate), now) <==> Nanos(now) < Nanos(lastUpdate) + CACHE_DURATION
    ensures now.epochDay == lastUpdate.epochDay && now.nanoOfDay == lastUpdate.nanoOfDay + CACHE_DURATION ==>
      !CacheValid(Some(cached), Some(lastUpdate), now)
    ensures now.epochDay == lastUpdate.epochDay && now.nanoOfDay == lastUpdate.nanoOfDay + CACHE_DURATION - 1 ==>
      CacheValid(Some(cached), Some(lastUpdate), now)
    ensures !CacheValid(None, Some(lastUpdate), now) && !CacheValid(Some(cached), None, now)
  {
  }

  class AdminApiClient {
    var cachedCategories: Option<seq<CategoryData>>
    var lastCacheUpdate: Option<DateTime>
    /** How many times the endpoint has been called. */
    ghost var fetchCount: nat

    /** The list is set exactly when the timestamp is, and a set list is never empty. */
    ghost predicate Valid()
      reads this
    {
      (cachedCategories.None? <==> lastCacheUpdate.None?) &&
      (cachedCategories.Some? ==> |cachedCategories.value| > 0)
    }

    constructor ()
      ensures Valid() && cachedCategories.None? && lastCacheUpdate.None? && fetchCount == 0
    {
      cachedCategories := None;
      lastCacheUpdate := None;
      fetchCount := 0;
    }

    predicate IsCacheValid(now: DateTime)
      reads this
    {
      CacheValid(cachedCategories, lastCacheUpdate, now)
    }

    /** callAdminApiStrict: one call of the endpoint; on success the list and the
        timestamp are set together, on failure nothing changes. */
    method CallAdminApiStrict(exchange: Exchange, now: DateTime) returns (r: Result<seq<CategoryData>, AdminError>)
      requires Valid()
      modifies this
      ensures Valid()
      ensures r == Validate(exchange)
      ensures fetchCount == old(fetchCount) + 1
      ensures r.Success? ==> cachedCategories == Some(r.value) && lastCacheUpdate == Some(now)
      ensures r.Failure? ==> cachedCategories == old(cachedCategories) && lastCacheUpdate == old(lastCacheUpdate)
    {
      fetchCount := fetchCount + 1;
      if exchange.TransportError? {
        return Failure(CallFailed(exchange.message));
      }
      var apiResponse := exchange.body;
      if apiResponse.None? {
        return Failure(NoResponse);
      }
      if !apiResponse.value.success {
        return Failure(Unsuccessful(apiResponse.value.message));
      }
      if apiResponse.value.data.None? {
        return Failure(NoData);
      }
      var categories := apiResponse.value.data.value.data;
      if categories.None? || |categories.value| == 0 {
        return Failure(NoCategories);
      }
      cachedCategories := categories;
      lastCacheUpdate := Some(now);
      return Success(categories.value);
    }

    /** getConsultingCategories: the cached list while it is valid, with no call of the
        endpoint; a strict call otherwise. */
    method GetConsultingCategories(exchange: Exchange, now: DateTime) returns (r: Result<seq<CategoryData>, AdminError>)
      requires Valid()
      modifies this
      ensures Valid()
      ensures old(IsCacheValid(now)) ==>
        r == Success(old(cachedCategories).value) && fetchCount == old(fetchCount) &&
        cachedCategories == old(cachedCategories) && lastCacheUpdate == old(lastCacheUpdate)
      ensures !old(IsCacheValid(now)) ==> r == Validate(exchange) && fetchCount == old(fetchCount) + 1
      ensures !old(IsCacheValid(now)) && r.Success? ==> cachedCategories == Some(r.value) && lastCacheUpdate == Some(now)
      ensures r.Failure? ==> cachedCategories == old(cachedCategories) && lastCacheUpdate == old(lastCacheUpdate)
      ensures r.Success? ==> |r.value| > 0 && cachedCategories == Some(r.value)
    {
      if IsCacheValid(now) {
        return Success(cachedCategories.value);
      }
      r := CallAdminApiStrict(exchange, now);
    }

    /** refreshCategoryCache: both fields are cleared before the call, so a failed
        refresh leaves no cache. */
    method RefreshCategoryCache(exchange: Exchange, now: DateTime) returns (r: Result<(), AdminError>)
      requires Valid()
      modifies this
      ensures Valid()
      ensures fetchCount == old(fetchCount) + 1
      ensures r.Success? <==> Validate(exchange).Success?
      ensures r.Failure? ==> r.error == Validate(exchange).error && cachedCategories.None? && lastCacheUpdate.None?
      ensures r.Success? ==> cachedCategories == Some(Validate(exchange).value) && lastCacheUpdate == Some(now)
    {
      cachedCategories := None;
      lastCacheUpdate := None;
      var fetched := CallAdminApiStrict(exchange, now);
      if fetched.Failure? {
        return Failure(fetched.error);
      }
      return Success(());
    }

    /** isCacheAvailable. */
    function IsCacheAvailable(): (b: bool)
      reads this
      ensures b <==> cachedCategories.Some? && |cachedCategories.value| > 0
    {
      match cachedCategories
      case None => false
      case Some(categories) => |categories| != 0
    }

    /** getCachedCategoryCount. */
    function GetCachedCategoryCount(): (n: nat)
      reads this
      ensures cachedCategories.Some? ==> n == |cachedCategories.value|
      ensures cachedCategories.None? ==> n == 0
    {
      if cachedCategories.Some? then |cachedCategories.value| else 0
    }

    /** Under the invariant a cache is available exactly when it is set, which is exactly
        when the count is positive. */
    lemma AvailabilityAgreesWithCount()
      requires Valid()
      ensures IsCacheAvailable() <==> cachedCategories.Some?
      ensures IsCacheAvailable() <==> GetCachedCategoryCount() > 0
    {
    }
  }
}
