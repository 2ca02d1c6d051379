/**
  The EventBridge side of the service: a menu-changed event names a restaurant; the handler
  syncs that restaurant's menu to every configured platform (with retry) and records one
  error per platform that failed.
 */
module EventHandlers {
  import opened Wrappers
  import opened Values
  import opened SyncModels
  import opened SyncRepositories
  import opened Adapters
  import opened SyncServices
  import opened ErrorServices
  import opened FailureReports

  /**
    The names `event_handler.py` binds at module level: what it imports, its logger, and the
    two classes and the parser it defines.
   */
  const ModuleNames: set<string> := {"logging", "Any", "BaseModel", "ValidationError", "PlatformAdapter",
                                     "ErrorService", "SyncService", "logger", "MenuChangedEvent",
                                     "parse_eventbridge_event", "EventHandler"}

  /** The `detail` of a menu event: three text fields. */
  datatype MenuChangedEvent = MenuChangedEvent(restaurantId: string, eventType: string, timestamp: string)

  /** A Lambda response, `{"statusCode": ..., "body": ...}`. */
  datatype LambdaReply = LambdaReply(statusCode: int, body: string)

  /** A text field of a detail: present and a string; pydantic does not turn other values into text. */
  predicate HasText(d: Dict, key: string) {
    key in d && d[key].JStr?
  }

  /**
    `parse_eventbridge_event`: `MenuChangedEvent(**event.get("detail", {}))`. A missing detail is
    the empty dict, which lacks the fields; a detail that is not a dict cannot be unpacked.
    Further keys of the detail are ignored.
   */
  function ParseEventBridgeEvent(event: Dict): (r: Option<MenuChangedEvent>)
    ensures r.Some? <==> "detail" in event && event["detail"].JObj?
                         && HasText(event["detail"].fields, "restaurant_id")
                         && HasText(event["detail"].fields, "event_type")
                         && HasText(event["detail"].fields, "timestamp")
    ensures r.Some? ==> var d := event["detail"].fields;
      r.value == MenuChangedEvent(d["restaurant_id"].s, d["event_type"].s, d["timestamp"].s)
  {
    var detail := Get(event, "detail", JObj(map[]));
    if detail.JObj? && HasText(detail.fields, "restaurant_id") && HasText(detail.fields, "event_type")
       && HasText(detail.fields, "timestamp")
    then Some(MenuChangedEvent(detail.fields["restaurant_id"].s, detail.fields["event_type"].s,
                               detail.fields["timestamp"].s))
    else None
  }

  /** The detail an event source sends for `e`. */
  function EventDetail(e: MenuChangedEvent): Dict {
    map["restaurant_id" := JStr(e.restaurantId), "event_type" := JStr(e.eventType), "timestamp" := JStr(e.timestamp)]
  }

  /** An event carrying `e`'s detail, whatever else the envelope and the detail hold, parses to `e`. */
  lemma ParseEventDetail(envelope: Dict, extra: Dict, e: MenuChangedEvent)
    ensures ParseEventBridgeEvent(envelope["detail" := JObj(extra + EventDetail(e))]) == Some(e)
  {
    var d := extra + EventDetail(e);
    assert d["restaurant_id"] == JStr(e.restaurantId) && d["event_type"] == JStr(e.eventType)
           && d["timestamp"] == JStr(e.timestamp);
  }

  /** An event without a detail is refused. */
  lemma ParseWithoutDetail(event: Dict)
    requires "detail" !in event
    ensures ParseEventBridgeEvent(event).None?
  {
  }

  /** `len(successes) > 0` holds exactly when some result succeeded. */
  lemma {:induction false} AnySucceeded(results: seq<SyncResult>)
    ensures |Successes(results)| > 0 <==> exists i | 0 <= i < |results| :: results[i].success
  {
    if |Successes(results)| > 0 {
      var r := Successes(results)[0];
      assert r in Successes(results);
      var i :| 0 <= i < |results| && results[i] == r;
    }
    if i :| 0 <= i < |results| && results[i].success {
      assert results[i] in Successes(results);
    }
  }

  const UnknownError := "Unknown error"
  const InvalidEventFormat := "Invalid event format"

  function ProcessedMessage(restaurantId: string): string {
    "Successfully processed menu change for restaurant " + restaurantId
  }

  function SyncFailedMessage(restaurantId: string): string {
    "Failed to sync menu for restaurant " + restaurantId
  }

  class EventHandler {
    const sync: SyncService
    const recorder: ErrorService
    const adapters: map<string, PlatformAdapter>

    constructor (sync: SyncService, recorder: ErrorService, adapters: map<string, PlatformAdapter>)
      ensures this.sync == sync && this.recorder == recorder && this.adapters == adapters
    {
      this.sync := sync;
      this.recorder := recorder;
      this.adapters := adapters;
    }

    ghost predicate Valid()
      reads this, sync, recorder, sync.statuses, recorder.errors
    {
      sync.statuses.Valid() && recorder.errors.Valid()
    }

    /**
      `handle_menu_changed`: every configured platform gets the pass its world gives, every
      failed result is recorded in result order (with "Unknown error" for an empty message),
      and the answer is whether any platform succeeded.
     */
    method HandleMenuChanged(event: MenuChangedEvent, world: string -> PassWorld, uuids: seq<string>, now: DateTime)
      returns (success: bool, ghost results: seq<SyncResult>, ghost order: seq<string>,
               ghost outcome: map<string, PassOutcome>)
      requires Valid()
      requires UuidsAvailable(uuids, |adapters|)
      modifies sync, sync.statuses, recorder, recorder.errors
      ensures Valid()
      ensures Planned(outcome, event.restaurantId, adapters, true, sync.retryDelaySeconds, world)
      ensures |results| == |order| == |adapters|
      ensures forall i | 0 <= i < |order| :: order[i] in adapters
      ensures forall p | p in adapters :: p in order
      ensures forall i | 0 <= i < |results| :: results[i] == outcome[order[i]].result
      ensures forall p | p in adapters ::
        PassRow(sync.statuses.rows, old(sync.statuses.rows), StatusKey(event.restaurantId, p), outcome[p].saved)
      ensures forall k: StatusKey | k.restaurantId != event.restaurantId || k.platform !in adapters ::
        SameRow(sync.statuses.rows, old(sync.statuses.rows), k)
      ensures recorder.recorded == old(recorder.recorded) + Reports(event.restaurantId, Failures(results), UnknownError, uuids, now)
      ensures ChangedOnlyBy(old(recorder.errors.rows), recorder.errors.rows,
                            Reports(event.restaurantId, Failures(results), UnknownError, uuids, now))
      ensures success <==> exists i | 0 <= i < |results| :: results[i].success
    {
      var rs;
      rs, order, outcome := sync.SyncToMultiplePlatforms(event.restaurantId, adapters, world, true);
      results := rs;
      ghost var synced := sync.statuses.rows;
      var successes := Successes(rs);
      RecordFailures(recorder, event.restaurantId, rs, UnknownError, uuids, now);
      assert sync.statuses.rows == synced;
      AnySucceeded(rs);
      success := |successes| > 0;
    }

    /**
      `handle_eventbridge_event`: 400 for an event that does not parse (and nothing synced or
      recorded); otherwise the passes `handle_menu_changed` runs, one per configured platform,
      and 200 when one of them synced and 500 when none did.
     */
    method HandleEventBridgeEvent(event: Dict, world: string -> PassWorld, uuids: seq<string>, now: DateTime)
      returns (reply: LambdaReply, ghost results: seq<SyncResult>, ghost order: seq<string>,
               ghost outcome: map<string, PassOutcome>)
      requires Valid()
      requires UuidsAvailable(uuids, |adapters|)
      modifies sync, sync.statuses, recorder, recorder.errors
      ensures Valid()
      ensures ParseEventBridgeEvent(event).None? ==>
        && reply == LambdaReply(400, InvalidEventFormat)
        && sync.statuses.rows == old(sync.statuses.rows) && recorder.errors.rows == old(recorder.errors.rows)
        && recorder.recorded == old(recorder.recorded)
      ensures ParseEventBridgeEvent(event).Some? ==>
        var rid := ParseEventBridgeEvent(event).value.restaurantId;
        && Planned(outcome, rid, adapters, true, sync.retryDelaySeconds, world)
        && |results| == |order| == |adapters|
        && (forall i | 0 <= i < |order| :: order[i] in adapters)
        && (forall p | p in adapters :: p in order)
        && (forall i | 0 <= i < |results| :: results[i] == outcome[order[i]].result)
        && (forall p | p in adapters ::
              PassRow(sync.statuses.rows, old(sync.statuses.rows), StatusKey(rid, p), outcome[p].saved))
        && (forall k: StatusKey | k.restaurantId != rid || k.platform !in adapters ::
              SameRow(sync.statuses.rows, old(sync.statuses.rows), k))
        && recorder.recorded == old(recorder.recorded) + Reports(rid, Failures(results), UnknownError, uuids, now)
        && ChangedOnlyBy(old(recorder.errors.rows), recorder.errors.rows,
                         Reports(rid, Failures(results), UnknownError, uuids, now))
        && reply == if exists i | 0 <= i < |results| :: results[i].success
                    then LambdaReply(200, ProcessedMessage(rid))
                    else LambdaReply(500, SyncFailedMessage(rid))
    {
      var menuEvent := ParseEventBridgeEvent(event);
      if menuEvent.None? {
        return LambdaReply(400, InvalidEventFormat), [], [], map[];
      }
      var rid := menuEvent.value.restaurantId;
      var success;
      success, results, order, outcome := HandleMenuChanged(menuEvent.value, world, uuids, now);
      if success {
        reply := LambdaReply(200, ProcessedMessage(rid));
      } else {
        reply := LambdaReply(500, SyncFailedMessage(rid));
      }
    }
  }
}
