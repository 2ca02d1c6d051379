/**
  The admin HTTP API: every route first checks the `X-API-Key` header, then reads sync status,
  triggers a full or single-platform sync, lists recorded errors, or retries one of them.
 */
module AdminApi {
  import opened Wrappers
  import opened Values
  import opened Text
  import opened SyncModels
  import opened SyncRepositories
  import opened Adapters
  import opened SyncServices
  import opened ErrorServices
  import opened FailureReports
  import opened Auth

  /** `PlatformSyncResponse`. */
  datatype PlatformSyncResponse =
    PlatformSyncResponse(restaurantId: string, platform: string, success: bool, itemCount: nat, errorMessage: Option<string>)

  /** `SyncTriggerResponse`; each entry of `results` is one result's four fields. */
  datatype SyncTriggerResponse = SyncTriggerResponse(restaurantId: string, success: bool, results: seq<SyncResult>)

  /** `ErrorRetryResponse`. */
  datatype ErrorRetryResponse = ErrorRetryResponse(errorId: string, success: bool, message: string)

  /** The `detail` of an `HTTPException`: a text, or a platform sync response for a failed manual sync. */
  datatype Detail = Text(text: string) | SyncDetail(response: PlatformSyncResponse)

  /**
    What a route answers: a body with its status code, a raised `HTTPException`, or an exception
    the route does not catch, which the server answers with 500 "Internal Server Error".
   */
  datatype Reply<T> = Answer(statusCode: int, body: T) | Raised(statusCode: int, detail: Detail) | Crashed(error: string)

  /** The reply for a refused API key. */
  function Refusal<T>(e: HttpError): (r: Reply<T>)
    ensures r.Raised? && r.statusCode == e.statusCode && r.detail == Text(e.detail)
  {
    Raised(e.statusCode, Text(e.detail))
  }

  const ManualSyncFailed := "Manual sync failed"
  /** `get_errors`' default page size. */
  const ErrorsPageSize: nat := 50
  /** The page `retry_error` searches. */
  const RetrySearchLimit: nat := 100

  /**
    The `TypeError` raised by the retry route's `increment_retry_count(error_id=…, created_at=…)`:
    the service's method takes the id alone.
   */
  const IncrementKeywordMessage := "ErrorService.increment_retry_count() got an unexpected keyword argument 'created_at'"

  function NotConfiguredMessage(platform: string): string {
    "Platform '" + platform + "' is not configured"
  }

  function ErrorNotFoundMessage(errorId: string): string {
    "Error " + errorId + " not found"
  }

  function RetriedMessage(platform: string): string {
    "Successfully retried sync to " + platform
  }

  /** `str(x)` of an optional text: None prints as "None". */
  function PyStr(s: Option<string>): (t: string)
    ensures s.Some? ==> t == s.value
    ensures s.None? ==> t == "None"
  {
    if s.Some? then s.value else "None"
  }

  function RetryFailedMessage(errorMessage: Option<string>): string {
    "Retry failed: " + PyStr(errorMessage)
  }

  /** 207 exactly for a mixed batch: not all succeeded, and not all failed. */
  function FullRefreshStatus(results: seq<SyncResult>): (code: int)
    ensures code == 207 <==> (exists i | 0 <= i < |results| :: results[i].success)
                             && (exists i | 0 <= i < |results| :: !results[i].success)
    ensures code != 207 ==> code == 200
  {
    if !(forall i | 0 <= i < |results| :: results[i].success)
       && !(forall i | 0 <= i < |results| :: !results[i].success)
    then 207 else 200
  }

  /** An empty batch counts as a full success (`all([])` is true), answered with 200. */
  lemma EmptyRefreshSucceeds()
    ensures FullRefreshStatus([]) == 200
  {
  }

  /**
    `found` is what the search loop of `retry_error` ends with: the first error of `errors` with
    the id, or None when no error has it.
   */
  predicate FirstWithId(errors: seq<SyncError>, errorId: string, found: Option<SyncError>) {
    match found
    case None => forall i | 0 <= i < |errors| :: errors[i].errorId != errorId
    case Some(e) =>
      exists i | 0 <= i < |errors| :: errors[i] == e && e.errorId == errorId
                                      && forall j | 0 <= j < i :: errors[j].errorId != errorId
  }

  method FindError(errors: seq<SyncError>, errorId: string) returns (found: Option<SyncError>, ghost at: nat)
    ensures found.None? <==> forall i | 0 <= i < |errors| :: errors[i].errorId != errorId
    ensures found.Some? ==> at < |errors| && found.value == errors[at] && errors[at].errorId == errorId
    ensures found.Some? ==> forall j | 0 <= j < at :: errors[j].errorId != errorId
    ensures FirstWithId(errors, errorId, found)
  {
    found, at := None, 0;
    var i := 0;
    while i < |errors|
      invariant 0 <= i <= |errors|
      invariant forall j | 0 <= j < i :: errors[j].errorId != errorId
    {
      if errors[i].errorId == errorId {
        found, at := Some(errors[i]), i;
        break;
      }
      i := i + 1;
    }
  }

  /**
    What the search of `retry_error` finds in `rows`: `listed` is the page listed for the
    restaurant id "" with limit 100, a prefix of what that query matched (`matched`), and
    `target` is the first error on it with the id, so only errors stored under that restaurant
    id can be found.
   */
  ghost predicate RetrySearch(rows: map<ErrorKey, SyncError>, errorId: string, listed: seq<SyncError>,
                              matched: seq<SyncError>, target: Option<SyncError>)
  {
    && Matches(rows, "", RetrySearchLimit, matched) && listed <= matched
    && (forall i | 0 <= i < |listed| ::
          listed[i].restaurantId == "" && ErrorKeyOf(listed[i]) in rows && rows[ErrorKeyOf(listed[i])] == listed[i])
    && FirstWithId(listed, errorId, target)
    && (target.Some? ==>
          && target.value.errorId == errorId && target.value.restaurantId == ""
          && ErrorKeyOf(target.value) in rows && rows[ErrorKeyOf(target.value)] == target.value)
  }

  class AdminApp {
    const sync: SyncService
    const recorder: ErrorService
    const adapters: map<string, PlatformAdapter>
    const validator: ApiKeyValidator

    constructor (sync: SyncService, recorder: ErrorService, adapters: map<string, PlatformAdapter>,
                 validator: ApiKeyValidator)
      ensures this.sync == sync && this.recorder == recorder && this.adapters == adapters
      ensures this.validator == validator
    {
      this.sync := sync;
      this.recorder := recorder;
      this.adapters := adapters;
      this.validator := validator;
    }

    ghost predicate Valid()
      reads this, sync, recorder, sync.statuses, recorder.errors
    {
      sync.statuses.Valid() && recorder.errors.Valid()
    }

    /** `validate_api_key`: the route's key check, against this app's validator. */
    function Authenticate(apiKey: Option<string>): (r: Result<string, HttpError>)
      ensures r.Success? <==> apiKey.Some? && apiKey.value != [] && apiKey.value in validator.apiKeys
      ensures r.Success? ==> r.value == apiKey.value
      ensures r.Failure? ==> r.error.statusCode == 401
    {
      GetApiKeyFromHeader(apiKey, Some(validator))
    }

    /**
      `GET /admin/sync-status/{restaurant_id}`: the repository's page of the restaurant's rows,
      a prefix of all of them (`matched`).
     */
    method GetSyncStatus(restaurantId: string, apiKey: Option<string>)
      returns (reply: Reply<seq<SyncStatus>>, ghost matched: seq<SyncStatus>)
      requires Valid()
      ensures Authenticate(apiKey).Failure? ==> reply == Refusal(Authenticate(apiKey).error)
      ensures Authenticate(apiKey).Success? ==>
        && reply.Answer? && reply.statusCode == 200
        && sync.statuses.AllRowsOf(restaurantId, matched) && reply.body <= matched
        && (forall i | 0 <= i < |reply.body| ::
              && reply.body[i].restaurantId == restaurantId && StatusKeyOf(reply.body[i]) in sync.statuses.rows
              && sync.statuses.rows[StatusKeyOf(reply.body[i])] == reply.body[i])
        && (forall i, j | 0 <= i < j < |reply.body| :: reply.body[i].platform != reply.body[j].platform)
    {
      var auth := Authenticate(apiKey);
      if auth.Failure? {
        return Refusal(auth.error), [];
      }
      var statuses;
      statuses, matched := sync.GetAllStatusesForRestaurant(restaurantId);
      reply := Answer(200, statuses);
    }

    /**
      `POST /admin/sync/{restaurant_id}/full-refresh`: a sync to every platform, one recorded
      error per failure ("Manual sync failed" for an empty message), and the batch's results;
      success means every platform succeeded, and a mixed batch is answered with 207.
     */
    method TriggerFullRefresh(restaurantId: string, apiKey: Option<string>, world: string -> PassWorld,
                              uuids: seq<string>, now: DateTime)
      returns (reply: Reply<SyncTriggerResponse>, ghost order: seq<string>, ghost outcome: map<string, PassOutcome>)
      requires Valid()
      requires UuidsAvailable(uuids, |adapters|)
      modifies sync, sync.statuses, recorder, recorder.errors
      ensures Valid()
      ensures Authenticate(apiKey).Failure? ==>
        && reply == Refusal(Authenticate(apiKey).error)
        && sync.statuses.rows == old(sync.statuses.rows) && recorder.errors.rows == old(recorder.errors.rows)
        && recorder.recorded == old(recorder.recorded)
      ensures Authenticate(apiKey).Success? ==>
        && reply.Answer? && reply.body.restaurantId == restaurantId
        && var results := reply.body.results;
        && |results| == |order| == |adapters|
        && (forall p | p in adapters :: p in order)
        && Planned(outcome, restaurantId, adapters, true, sync.retryDelaySeconds, world)
        && (forall i | 0 <= i < |results| :: order[i] in adapters && results[i] == outcome[order[i]].result)
        && (forall p | p in adapters ::
              PassRow(sync.statuses.rows, old(sync.statuses.rows), StatusKey(restaurantId, p), outcome[p].saved))
        && (forall k: StatusKey | k.restaurantId != restaurantId || k.platform !in adapters ::
              SameRow(sync.statuses.rows, old(sync.statuses.rows), k))
        && (reply.body.success <==> forall i | 0 <= i < |results| :: results[i].success)
        && reply.statusCode == FullRefreshStatus(results)
        && recorder.recorded == old(recorder.recorded) + Reports(restaurantId, Failures(results), ManualSyncFailed, uuids, now)
        && ChangedOnlyBy(old(recorder.errors.rows), recorder.errors.rows,
                         Reports(restaurantId, Failures(results), ManualSyncFailed, uuids, now))
    {
      var auth := Authenticate(apiKey);
      if auth.Failure? {
        return Refusal(auth.error), [], map[];
      }
      var results;
      results, order, outcome := sync.SyncToMultiplePlatforms(restaurantId, adapters, world, true);
      RecordFailures(recorder, restaurantId, results, ManualSyncFailed, uuids, now);
      var success := forall i | 0 <= i < |results| :: results[i].success;
      reply := Answer(FullRefreshStatus(results), SyncTriggerResponse(restaurantId, success, results));
    }

    /**
      `POST /admin/sync/{restaurant_id}/platform/{platform}`: 404 for a platform that is not
      configured; otherwise one pass with retry. A failed pass is recorded ("Manual sync failed"
      for an empty message) and answered with 500 and the pass's result as detail.
     */
    method TriggerPlatformSync(restaurantId: string, platform: string, apiKey: Option<string>, w: PassWorld,
                               uuidHex: string, now: DateTime)
      returns (reply: Reply<PlatformSyncResponse>)
      requires Valid()
      requires |uuidHex| == 32 && IsHex(uuidHex)
      modifies sync, sync.statuses, recorder, recorder.errors
      ensures Valid()
      ensures Authenticate(apiKey).Failure? || platform !in adapters ==>
        && sync.statuses.rows == old(sync.statuses.rows) && recorder.errors.rows == old(recorder.errors.rows)
        && recorder.recorded == old(recorder.recorded)
      ensures Authenticate(apiKey).Failure? ==> reply == Refusal(Authenticate(apiKey).error)
      ensures Authenticate(apiKey).Success? && platform !in adapters ==>
        reply == Raised(404, Text(NotConfiguredMessage(platform)))
      ensures Authenticate(apiKey).Success? && platform in adapters ==>
        var o := Pass(restaurantId, platform, adapters[platform], true, sync.retryDelaySeconds, w);
        && (sync.statuses.rows == old(sync.statuses.rows)[StatusKeyOf(o.saved) := o.saved]
            || sync.statuses.rows == old(sync.statuses.rows))
        && (o.result.success ==>
              && reply == Answer(200, PlatformSyncResponse(restaurantId, platform, true, o.result.itemCount, None))
              && recorder.recorded == old(recorder.recorded) && recorder.errors.rows == old(recorder.errors.rows))
        && (!o.result.success ==>
              var e := RecordedError(restaurantId, platform, Details(o.result, ManualSyncFailed), None, None, uuidHex, now);
              && reply == Raised(500, SyncDetail(PlatformSyncResponse(restaurantId, platform, false, o.result.itemCount,
                                                                      o.result.errorMessage)))
              && recorder.recorded == old(recorder.recorded) + [e]
              && (recorder.errors.rows == old(recorder.errors.rows)[ErrorKeyOf(e) := e]
                  || recorder.errors.rows == old(recorder.errors.rows)))
    {
      var auth := Authenticate(apiKey);
      if auth.Failure? {
        return Refusal(auth.error);
      }
      if platform !in adapters {
        return Raised(404, Text(NotConfiguredMessage(platform)));
      }
      var result := sync.SyncToPlatform(restaurantId, platform, adapters[platform], w, true);
      if !result.success {
        var _ := recorder.RecordSyncError(restaurantId, platform, Details(result, ManualSyncFailed), None, None,
                                          uuidHex, now);
        return Raised(500, SyncDetail(PlatformSyncResponse(restaurantId, platform, false, result.itemCount,
                                                           result.errorMessage)));
      }
      reply := Answer(200, PlatformSyncResponse(restaurantId, platform, true, result.itemCount, None));
    }

    /**
      `GET /admin/errors/{restaurant_id}`: the repository's page for the restaurant with `limit`
      (50 by default), a prefix of what the query matched (`matched`), with only the named
      platform's errors when one is given. A `limit` below 1 makes the query's parameter
      validation raise, which the route does not catch.
     */
    method GetErrors(restaurantId: string, platform: Option<string>, apiKey: Option<string>,
                     limit: int := ErrorsPageSize)
      returns (reply: Reply<seq<SyncError>>, ghost listed: seq<SyncError>, ghost matched: seq<SyncError>)
      requires Valid()
      ensures Authenticate(apiKey).Failure? ==> reply == Refusal(Authenticate(apiKey).error)
      ensures Authenticate(apiKey).Success? && limit < 1 ==> reply == Crashed(LimitError(Some(limit)))
      ensures Authenticate(apiKey).Success? && limit >= 1 ==>
        && reply.Answer? && reply.statusCode == 200 && |reply.body| <= limit
        && reply.body == FilterPlatform(listed, platform)
        && Matches(recorder.errors.rows, restaurantId, limit, matched) && listed <= matched
        && (forall i | 0 <= i < |listed| ::
              listed[i].restaurantId == restaurantId && ErrorKeyOf(listed[i]) in recorder.errors.rows
              && recorder.errors.rows[ErrorKeyOf(listed[i])] == listed[i])
        && (forall e | e in reply.body ::
              e.restaurantId == restaurantId && ErrorKeyOf(e) in recorder.errors.rows
              && recorder.errors.rows[ErrorKeyOf(e)] == e)
        && (platform.Some? && platform.value != [] ==> forall e | e in reply.body :: e.platform == platform.value)
    {
      var auth := Authenticate(apiKey);
      if auth.Failure? {
        return Refusal(auth.error), [], [];
      }
      var errors;
      errors, listed, matched := recorder.GetErrorsForRestaurant(restaurantId, platform, Some(limit));
      if errors.Failure? {
        return Crashed(errors.error), listed, matched;
      }
      reply := Answer(200, errors.value);
    }

    /** The search of `retry_error`. */
    method FindRetryTarget(errorId: string)
      returns (target: Option<SyncError>, ghost listed: seq<SyncError>, ghost matched: seq<SyncError>)
      requires Valid()
      ensures RetrySearch(recorder.errors.rows, errorId, listed, matched, target)
      ensures target.Some? ==> target.value.errorId == errorId && ErrorKeyOf(target.value) in recorder.errors.rows
                               && recorder.errors.rows[ErrorKeyOf(target.value)] == target.value
    {
      var errors;
      errors, listed, matched := recorder.GetErrorsForRestaurant("", None, Some(RetrySearchLimit));
      ghost var at;
      target, at := FindError(errors.value, errorId);
      if target.Some? {
        assert errors.value[at] in errors.value;
      }
    }

    /** The retry of a found error whose platform is configured: one pass, then the count increment. */
    method RetryFound(errorId: string, e: SyncError, w: PassWorld) returns (reply: Reply<ErrorRetryResponse>)
      requires Valid()
      requires e.platform in adapters
      modifies sync, sync.statuses, recorder.errors
      ensures Valid()
      ensures var o := Pass(e.restaurantId, e.platform, adapters[e.platform], true, sync.retryDelaySeconds, w);
        && (sync.statuses.rows == old(sync.statuses.rows)[StatusKeyOf(o.saved) := o.saved]
            || sync.statuses.rows == old(sync.statuses.rows))
        && reply == Answer(200, if o.result.success then ErrorRetryResponse(errorId, true, RetriedMessage(e.platform))
                                else ErrorRetryResponse(errorId, false, RetryFailedMessage(o.result.errorMessage)))
      ensures var k := ErrorKeyOf(e);
        if k in old(recorder.errors.rows) && old(recorder.errors.rows)[k] == e
        then recorder.errors.rows == old(recorder.errors.rows)[k := e.(retryCount := e.retryCount + 1)]
             || recorder.errors.rows == old(recorder.errors.rows)
        else k !in old(recorder.errors.rows) ==> recorder.errors.rows == old(recorder.errors.rows)
    {
      var result := sync.SyncToPlatform(e.restaurantId, e.platform, adapters[e.platform], w, true);
      var _ := recorder.IncrementRetryCount(e.errorId, e.createdAt);
      if result.success {
        reply := Answer(200, ErrorRetryResponse(errorId, true, RetriedMessage(e.platform)));
      } else {
        reply := Answer(200, ErrorRetryResponse(errorId, false, RetryFailedMessage(result.errorMessage)));
      }
    }

    /**
      The retry of a found error as written: the pass runs, then the call
      `increment_retry_count(error_id=…, created_at=…)` raises `TypeError`, which the route does
      not catch, so the retry count is never written.
     */
    method RetryFoundAsWritten(errorId: string, e: SyncError, w: PassWorld) returns (reply: Reply<ErrorRetryResponse>)
      requires Valid()
      requires e.platform in adapters
      modifies sync, sync.statuses
      ensures Valid()
      ensures var o := Pass(e.restaurantId, e.platform, adapters[e.platform], true, sync.retryDelaySeconds, w);
        sync.statuses.rows == old(sync.statuses.rows)[StatusKeyOf(o.saved) := o.saved]
        || sync.statuses.rows == old(sync.statuses.rows)
      ensures reply == Crashed(IncrementKeywordMessage)
    {
      var _ := sync.SyncToPlatform(e.restaurantId, e.platform, adapters[e.platform], w, true);
      reply := Crashed(IncrementKeywordMessage);
    }

    /**
      `POST /admin/errors/{error_id}/retry`: 404 when the search does not find the id or the
      error's platform is not configured; otherwise one pass with retry for the error's
      restaurant and platform, a retry-count increment on the error, and a message saying how
      the pass went.
     */
    method RetryError(errorId: string, apiKey: Option<string>, w: PassWorld)
      returns (reply: Reply<ErrorRetryResponse>, ghost target: Option<SyncError>, ghost listed: seq<SyncError>,
               ghost matched: seq<SyncError>)
      requires Valid()
      modifies sync, sync.statuses, recorder.errors
      ensures Valid()
      ensures Authenticate(apiKey).Failure? ==> reply == Refusal(Authenticate(apiKey).error)
      ensures Authenticate(apiKey).Success? ==> RetrySearch(old(recorder.errors.rows), errorId, listed, matched, target)
      ensures Authenticate(apiKey).Success? && target.None? ==>
        reply == Raised(404, Text(ErrorNotFoundMessage(errorId)))
      ensures Authenticate(apiKey).Failure? || target.None? || target.value.platform !in adapters ==>
        sync.statuses.rows == old(sync.statuses.rows) && recorder.errors.rows == old(recorder.errors.rows)
      ensures Authenticate(apiKey).Success? && target.Some? && target.value.platform !in adapters ==>
        reply == Raised(404, Text(NotConfiguredMessage(target.value.platform)))
      ensures Authenticate(apiKey).Success? && target.Some? && target.value.platform in adapters ==>
        var e := target.value;
        var o := Pass(e.restaurantId, e.platform, adapters[e.platform], true, sync.retryDelaySeconds, w);
        && (sync.statuses.rows == old(sync.statuses.rows)[StatusKeyOf(o.saved) := o.saved]
            || sync.statuses.rows == old(sync.statuses.rows))
        && (recorder.errors.rows == old(recorder.errors.rows)[ErrorKeyOf(e) := e.(retryCount := e.retryCount + 1)]
            || recorder.errors.rows == old(recorder.errors.rows))
        && reply == Answer(200, if o.result.success then ErrorRetryResponse(errorId, true, RetriedMessage(e.platform))
                                else ErrorRetryResponse(errorId, false, RetryFailedMessage(o.result.errorMessage)))
    {
      var auth := Authenticate(apiKey);
      if auth.Failure? {
        return Refusal(auth.error), None, [], [];
      }
      var error;
      error, listed, matched := FindRetryTarget(errorId);
      target := error;
      if error.None? {
        return Raised(404, Text(ErrorNotFoundMessage(errorId))), target, listed, matched;
      }
      if error.value.platform !in adapters {
        return Raised(404, Text(NotConfiguredMessage(error.value.platform))), target, listed, matched;
      }
      reply := RetryFound(errorId, error.value, w);
    }

    /**
      `POST /admin/errors/{error_id}/retry` as written: the search and the 404s of `RetryError`,
      but a found error with a configured platform gets its pass and then the uncaught
      `TypeError` of the count increment, so the retry count stays as it was.
     */
    method RetryErrorAsWritten(errorId: string, apiKey: Option<string>, w: PassWorld)
      returns (reply: Reply<ErrorRetryResponse>, ghost target: Option<SyncError>, ghost listed: seq<SyncError>,
               ghost matched: seq<SyncError>)
      requires Valid()
      modifies sync, sync.statuses
      ensures Valid()
      ensures Authenticate(apiKey).Failure? ==> reply == Refusal(Authenticate(apiKey).error)
      ensures Authenticate(apiKey).Success? ==> RetrySearch(recorder.errors.rows, errorId, listed, matched, target)
      ensures Authenticate(apiKey).Success? && target.None? ==>
        reply == Raised(404, Text(ErrorNotFoundMessage(errorId)))
      ensures Authenticate(apiKey).Failure? || target.None? || target.value.platform !in adapters ==>
        sync.statuses.rows == old(sync.statuses.rows)
      ensures Authenticate(apiKey).Success? && target.Some? && target.value.platform !in adapters ==>
        reply == Raised(404, Text(NotConfiguredMessage(target.value.platform)))
      ensures Authenticate(apiKey).Success? && target.Some? && target.value.platform in adapters ==>
        var e := target.value;
        var o := Pass(e.restaurantId, e.platform, adapters[e.platform], true, sync.retryDelaySeconds, w);
        && (sync.statuses.rows == old(sync.statuses.rows)[StatusKeyOf(o.saved) := o.saved]
            || sync.statuses.rows == old(sync.statuses.rows))
        && reply == Crashed(IncrementKeywordMessage)
    {
      var auth := Authenticate(apiKey);
      if auth.Failure? {
        return Refusal(auth.error), None, [], [];
      }
      var error;
      error, listed, matched := FindRetryTarget(errorId);
      target := error;
      if error.None? {
        return Raised(404, Text(ErrorNotFoundMessage(errorId))), target, listed, matched;
      }
      if error.value.platform !in adapters {
        return Raised(404, Text(NotConfiguredMessage(error.value.platform))), target, listed, matched;
      }
      reply := RetryFoundAsWritten(errorId, error.value, w);
    }
  }

  /**
    `create_app`: the app over the given services and adapters, with a validator for the keys;
    an empty key list is refused as the validator refuses it.
   */
  method CreateApp(sync: SyncService, recorder: ErrorService, adapters: map<string, PlatformAdapter>,
                   apiKeys: seq<string>)
    returns (r: Result<AdminApp, string>)
    ensures r.Failure? <==> apiKeys == []
    ensures r.Failure? ==> r.error == NoKeysMessage
    ensures r.Success? ==> fresh(r.value) && r.value.sync == sync && r.value.recorder == recorder
                           && r.value.adapters == adapters && r.value.validator == NewValidator(apiKeys).value
  {
    var validator := NewValidator(apiKeys);
    if validator.Failure? {
      return Failure(validator.error);
    }
    var app := new AdminApp(sync, recorder, adapters, validator.value);
    r := Success(app);
  }
}
