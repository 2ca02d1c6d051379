/**
  The Lambda entry point: EventBridge-shaped events are answered directly (a menu-changed
  event from the menu service syncs that restaurant), everything else goes to the admin API
  through the ASGI adapter.
 */
module LambdaEntry {
  import opened Wrappers
  import opened Values
  import opened SyncModels
  import opened SyncRepositories
  import opened Adapters
  import opened SyncServices
  import opened ErrorServices
  import opened FailureReports
  import opened EventHandlers
  import opened LambdaDependencies
  import opened Decimals

  /** `is_eventbridge_event`: the event carries "source", "detail-type" and "detail". */
  predicate IsEventBridgeEvent(event: Dict) {
    "source" in event && "detail-type" in event && "detail" in event
  }

  /**
    `str(v)` as an f-string shows a value. Lists and dicts are shown by a placeholder: their
    Python `repr` is not modelled.
   */
  function ShowJson(v: Json): string {
    match v
    case JNull => "None"
    case JBool(b) => if b then "True" else "False"
    case JNum(n) => IntText(n)
    case JStr(s) => s
    case JArr(_) => "[...]"
    case JObj(_) => "{...}"
  }

  /** Python's name for the type of a value. */
  function TypeName(v: Json): string {
    match v
    case JNull => "NoneType"
    case JBool(_) => "bool"
    case JNum(_) => "int"
    case JStr(_) => "str"
    case JArr(_) => "list"
    case JObj(_) => "dict"
  }

  const MenuSource := "com.restaurant.menu"
  const MenuChangedType := "MenuChanged"
  const DefaultEventType := "menu.updated"
  const TextFields := ["restaurant_id", "event_type", "timestamp"]

  function Source(event: Dict): Json {
    Get(event, "source", JStr(""))
  }

  function DetailType(event: Dict): Json {
    Get(event, "detail-type", JStr(""))
  }

  /** The only event the entry point handles: a "MenuChanged" from the menu service. */
  predicate Supported(event: Dict) {
    Source(event) == JStr(MenuSource) && DetailType(event) == JStr(MenuChangedType)
  }

  function UnsupportedMessage(event: Dict): string {
    "Unsupported event type: " + ShowJson(Source(event)) + "/" + ShowJson(DetailType(event))
  }

  /** The `AttributeError` text of `detail.get(...)` on a detail that is not a dict. */
  function NoGetMessage(detail: Json): string {
    AttributeErrorMessage(TypeName(detail), "get")
  }

  /** The detail's value for `key`, or the default the entry point passes to `detail.get`. */
  function Field(fields: Dict, key: string): Json {
    Get(fields, key, JStr(if key == "event_type" then DefaultEventType else ""))
  }

  /** The text fields of the event model whose value is not a string, in declaration order. */
  function InvalidFields(fields: Dict): (bad: seq<string>)
    ensures forall k | k in bad :: k in TextFields && !Field(fields, k).JStr?
    ensures forall k | k in TextFields && !Field(fields, k).JStr? :: k in bad
  {
    (if Field(fields, "restaurant_id").JStr? then [] else ["restaurant_id"])
    + (if Field(fields, "event_type").JStr? then [] else ["event_type"])
    + (if Field(fields, "timestamp").JStr? then [] else ["timestamp"])
  }

  function FieldLines(bad: seq<string>): string {
    if bad == [] then "" else "\n" + bad[0] + "\n  Input should be a valid string" + FieldLines(bad[1..])
  }

  /** The model's validation error: the number of fields in error and, per field, the string requirement. */
  function ValidationMessage(bad: seq<string>): string {
    IntText(|bad|) + (if |bad| == 1 then " validation error" else " validation errors")
    + " for MenuChangedEvent" + FieldLines(bad)
  }

  /** The three outcomes of reading an event before any handler is asked for. */
  datatype Decision =
    | Unsupported(message: string)
    | Refused(message: string)
    | Dispatch(menuEvent: MenuChangedEvent)

  /**
    Lines 99-118 of `handle_eventbridge_event`: an unsupported source or detail type is
    answered at once; a detail that is not a dict, or a field that is not a string, raises; any
    other event becomes a menu event, with "", "menu.updated" and "" for missing fields.
   */
  function Decide(event: Dict): (d: Decision)
    ensures d.Unsupported? <==> !Supported(event)
    ensures d.Unsupported? ==> d.message == UnsupportedMessage(event)
  {
    if !Supported(event) then Unsupported(UnsupportedMessage(event))
    else
      var detail := Get(event, "detail", JObj(map[]));
      if !detail.JObj? then Refused(NoGetMessage(detail))
      else
        var bad := InvalidFields(detail.fields);
        if bad != [] then Refused(ValidationMessage(bad))
        else
          Dispatch(MenuChangedEvent(Field(detail.fields, "restaurant_id").s, Field(detail.fields, "event_type").s,
                                    Field(detail.fields, "timestamp").s))
  }

  /**
    A supported event is dispatched exactly when its detail is a dict (or absent) whose three
    fields are strings or absent.
   */
  lemma DispatchIffTextFields(event: Dict)
    requires Supported(event)
    ensures Decide(event).Dispatch? <==>
      && ("detail" in event ==> event["detail"].JObj?)
      && forall k | k in TextFields :: !("detail" in event && k in event["detail"].fields) || event["detail"].fields[k].JStr?
  {
    var detail := Get(event, "detail", JObj(map[]));
    if detail.JObj? {
      var bad := InvalidFields(detail.fields);
      if bad != [] {
        assert bad[0] in bad;
      }
    }
  }

  /** Missing fields take their defaults (the tests' events without `event_type` or `timestamp`). */
  lemma MissingFieldsDefault(event: Dict, restaurantId: string)
    requires Supported(event) && "detail" in event
    requires event["detail"] == JObj(map["restaurant_id" := JStr(restaurantId)])
    ensures Decide(event) == Dispatch(MenuChangedEvent(restaurantId, DefaultEventType, ""))
  {
  }

  /** Where the handler's own parser accepts an event, the entry point reads the same menu event. */
  lemma DecideAgreesWithParse(event: Dict, e: MenuChangedEvent)
    requires Supported(event) && ParseEventBridgeEvent(event) == Some(e)
    ensures Decide(event) == Dispatch(e)
  {
  }

  /** A detail that is not a dict is refused with the type named in the message. */
  lemma NonDictDetailRefused(event: Dict)
    requires Supported(event) && "detail" in event && !event["detail"].JObj?
    ensures Decide(event) == Refused("'" + TypeName(event["detail"]) + "' object has no attribute 'get'")
  {
  }

  /** With text source and detail type, the refusal names both. */
  lemma UnsupportedNamesBoth(event: Dict, source: string, detailType: string)
    requires "source" in event && event["source"] == JStr(source)
    requires "detail-type" in event && event["detail-type"] == JStr(detailType)
    requires source != MenuSource || detailType != MenuChangedType
    ensures Decide(event) == Unsupported("Unsupported event type: " + source + "/" + detailType)
  {
  }

  function ErrorProcessingMessage(message: string): string {
    "Error processing event: " + message
  }

  function InternalErrorMessage(message: string): string {
    "Internal server error: " + message
  }

  /** The adapters a container can configure number at most one. */
  lemma AtMostOnePlatform(m: map<string, PlatformAdapter>)
    requires m.Keys <= {"doordash"}
    ensures |m| <= 1
  {
    if "doordash" in m {
      assert m.Keys == {"doordash"};
    } else {
      assert m.Keys == {};
    }
  }

  /** The tables and caches of the container are as they were. */
  twostate predicate Untouched(c: Container)
    reads c, c.statusTable, c.errorTable
  {
    && c.statusTable.rows == old(c.statusTable.rows) && c.errorTable.rows == old(c.errorTable.rows)
    && c.platformAdapters == old(c.platformAdapters) && c.syncService == old(c.syncService)
    && c.errorService == old(c.errorService) && c.eventHandler == old(c.eventHandler) && c.app == old(c.app)
  }

  /**
    What handling menu event `rid` with a handler over `adapters` did, with at most the one
    platform a container configures: the planned pass for that platform is the only result, its
    end-of-pass row is written (or, when the write failed, the key keeps its row), and no other
    status row changes.
   */
  ghost predicate MenuEventRan(rid: string, adapters: map<string, PlatformAdapter>, retryDelaySeconds: int,
                               world: string -> PassWorld, results: seq<SyncResult>,
                               outcome: map<string, PassOutcome>,
                               rows: map<StatusKey, SyncStatus>, before: map<StatusKey, SyncStatus>)
  {
    && Planned(outcome, rid, adapters, true, retryDelaySeconds, world)
    && results == (if "doordash" in adapters then [outcome["doordash"].result] else [])
    && ("doordash" in adapters ==> PassRow(rows, before, StatusKey(rid, "doordash"), outcome["doordash"].saved))
    && (forall k: StatusKey | k.restaurantId != rid || k.platform !in adapters :: SameRow(rows, before, k))
  }

  /** A batch over at most the one platform has that platform's result as its only result. */
  lemma OnePlatformBatch(results: seq<SyncResult>, order: seq<string>, outcome: map<string, PassOutcome>,
                         adapters: map<string, PlatformAdapter>)
    requires adapters.Keys <= {"doordash"} && outcome.Keys == adapters.Keys
    requires |results| == |order| == |adapters|
    requires forall i | 0 <= i < |order| :: order[i] in adapters
    requires forall i | 0 <= i < |results| :: results[i] == outcome[order[i]].result
    ensures results == if "doordash" in adapters then [outcome["doordash"].result] else []
  {
    if "doordash" in adapters {
      assert adapters.Keys == {"doordash"};
      assert order[0] == "doordash";
    } else {
      assert adapters.Keys == {};
    }
  }

  /**
    Lines 124-139 of `handle_eventbridge_event`: the container's event handler syncs the
    restaurant, recording one error per failed platform, and the answer is 200 when the
    platform synced and 500 when it did not or none is configured.
   */
  method RunMenuEvent(c: Container, handler: EventHandler, e: MenuChangedEvent, world: string -> PassWorld,
                      uuids: seq<string>, now: DateTime)
    returns (reply: LambdaReply, ghost results: seq<SyncResult>, ghost outcome: map<string, PassOutcome>)
    requires c.statusTable.Valid() && c.errorTable.Valid()
    requires c.eventHandler == Some(handler) && handler.adapters.Keys <= {"doordash"}
    requires handler.sync.statuses == c.statusTable && handler.recorder.errors == c.errorTable
    requires UuidsAvailable(uuids, 1)
    modifies handler.sync, c.statusTable, handler.recorder, c.errorTable
    ensures c.statusTable.Valid() && c.errorTable.Valid()
    ensures MenuEventRan(e.restaurantId, handler.adapters, handler.sync.retryDelaySeconds, world, results, outcome,
                         c.statusTable.rows, old(c.statusTable.rows))
    ensures handler.recorder.recorded
            == old(handler.recorder.recorded) + Reports(e.restaurantId, Failures(results), UnknownError, uuids, now)
    ensures ChangedOnlyBy(old(c.errorTable.rows), c.errorTable.rows,
                          Reports(e.restaurantId, Failures(results), UnknownError, uuids, now))
    ensures reply == if exists i | 0 <= i < |results| :: results[i].success
                     then LambdaReply(200, ProcessedMessage(e.restaurantId))
                     else LambdaReply(500, SyncFailedMessage(e.restaurantId))
  {
    AtMostOnePlatform(handler.adapters);
    var success;
    ghost var order;
    success, results, order, outcome := handler.HandleMenuChanged(e, world, uuids, now);
    OnePlatformBatch(results, order, outcome, handler.adapters);
    if success {
      reply := LambdaReply(200, ProcessedMessage(e.restaurantId));
    } else {
      reply := LambdaReply(500, SyncFailedMessage(e.restaurantId));
    }
  }

  /** `get_event_handler()` as the dispatch needs it: the cached or new handler over the container's tables. */
  method ObtainEventHandler(c: Container) returns (built: Result<EventHandler, string>)
    requires c.Valid()
    modifies c
    ensures c.Valid()
    ensures old(c.eventHandler).None? && old(c.syncService).None? && !MenuServiceConfigured(c.env) ==>
      built == Failure(MenuServiceMessage)
    ensures built.Failure? ==> c.eventHandler.None?
    ensures built.Success? ==>
      var h := built.value;
      && c.eventHandler == Some(h) && h.adapters.Keys <= {"doordash"}
      && h.sync.statuses == c.statusTable && h.recorder.errors == c.errorTable
      && (h.sync in old(c.Services()) || fresh(h.sync)) && (h.recorder in old(c.Services()) || fresh(h.recorder))
  {
    built := c.GetEventHandler();
  }

  /**
    Lines 120-139 of `handle_eventbridge_event`, for a menu event already read: the container's
    event handler (500 when it cannot be built, with the tables untouched) runs the event as
    `RunMenuEvent` states.
   */
  method DispatchMenuEvent(c: Container, e: MenuChangedEvent, world: string -> PassWorld, uuids: seq<string>,
                           now: DateTime)
    returns (reply: LambdaReply, ghost results: seq<SyncResult>, ghost outcome: map<string, PassOutcome>)
    requires c.Valid() && c.statusTable.Valid() && c.errorTable.Valid()
    requires UuidsAvailable(uuids, 1)
    modifies c, c.statusTable, c.errorTable, c.Services()
    ensures c.Valid() && c.statusTable.Valid() && c.errorTable.Valid()
    ensures old(c.eventHandler).None? && old(c.syncService).None? && !MenuServiceConfigured(c.env) ==>
      reply == LambdaReply(500, ErrorProcessingMessage(MenuServiceMessage))
    ensures c.eventHandler.None? ==>
      && reply.statusCode == 500
      && c.statusTable.rows == old(c.statusTable.rows) && c.errorTable.rows == old(c.errorTable.rows)
    ensures c.eventHandler.Some? ==>
      var h := c.eventHandler.value;
      && MenuEventRan(e.restaurantId, h.adapters, h.sync.retryDelaySeconds, world, results, outcome,
                      c.statusTable.rows, old(c.statusTable.rows))
      && ChangedOnlyBy(old(c.errorTable.rows), c.errorTable.rows,
                       Reports(e.restaurantId, Failures(results), UnknownError, uuids, now))
      && reply == if exists i | 0 <= i < |results| :: results[i].success
                  then LambdaReply(200, ProcessedMessage(e.restaurantId))
                  else LambdaReply(500, SyncFailedMessage(e.restaurantId))
  {
    var built := ObtainEventHandler(c);
    if built.Failure? {
      return LambdaReply(500, ErrorProcessingMessage(built.error)), [], map[];
    }
    var h := built.value;
    assert c.eventHandler == Some(h);
    assert c.statusTable.rows == old(c.statusTable.rows) && c.errorTable.rows == old(c.errorTable.rows);
    reply, results, outcome := RunMenuEvent(c, h, e, world, uuids, now);
  }

  /**
    `handle_eventbridge_event`: 400 for an unsupported event and 500 for an unreadable detail,
    both before any handler is built and with nothing changed; any other event is dispatched.
   */
  method HandleEventBridgeEvent(c: Container, event: Dict, world: string -> PassWorld, uuids: seq<string>,
                                now: DateTime)
    returns (reply: LambdaReply, ghost results: seq<SyncResult>, ghost outcome: map<string, PassOutcome>)
    requires c.Valid() && c.statusTable.Valid() && c.errorTable.Valid()
    requires UuidsAvailable(uuids, 1)
    modifies c, c.statusTable, c.errorTable, c.Services()
    ensures c.Valid() && c.statusTable.Valid() && c.errorTable.Valid()
    ensures Decide(event).Unsupported? ==> reply == LambdaReply(400, Decide(event).message) && Untouched(c)
    ensures Decide(event).Refused? ==> reply == LambdaReply(500, ErrorProcessingMessage(Decide(event).message)) && Untouched(c)
    ensures Decide(event).Dispatch? && c.eventHandler.Some? ==>
      var rid := Decide(event).menuEvent.restaurantId;
      var h := c.eventHandler.value;
      && MenuEventRan(rid, h.adapters, h.sync.retryDelaySeconds, world, results, outcome,
                      c.statusTable.rows, old(c.statusTable.rows))
      && ChangedOnlyBy(old(c.errorTable.rows), c.errorTable.rows, Reports(rid, Failures(results), UnknownError, uuids, now))
      && reply == if exists i | 0 <= i < |results| :: results[i].success
                  then LambdaReply(200, ProcessedMessage(rid))
                  else LambdaReply(500, SyncFailedMessage(rid))
    ensures Decide(event).Dispatch? && c.eventHandler.None? ==>
      && reply.statusCode == 500
      && c.statusTable.rows == old(c.statusTable.rows) && c.errorTable.rows == old(c.errorTable.rows)
  {
    var decision := Decide(event);
    if decision.Unsupported? {
      return LambdaReply(400, decision.message), [], map[];
    }
    if decision.Refused? {
      return LambdaReply(500, ErrorProcessingMessage(decision.message)), [], map[];
    }
    reply, results, outcome := DispatchMenuEvent(c, decision.menuEvent, world, uuids, now);
  }

  /**
    What `lambda_handler` gives the Lambda runtime: a reply it built, the ASGI adapter's answer,
    or the text of an exception that escaped it (the runtime reports that as a failed invocation).
   */
  datatype LambdaResponse = Direct(reply: LambdaReply) | Proxied(response: Dict) | Uncaught(error: string)

  /** The context object an invocation receives: its type name and the attributes it has. */
  datatype LambdaContext = LambdaContext(typeName: string, attributes: set<string>)

  /** The context the AWS Lambda Python runtime passes: its request id is `aws_request_id`. */
  const RuntimeContext := LambdaContext("LambdaContext",
    {"aws_request_id", "log_group_name", "log_stream_name", "function_name", "memory_limit_in_mb",
     "function_version", "invoked_function_arn", "client_context", "identity"})

  /** The runtime's context has `aws_request_id` and no `request_id`. */
  lemma RuntimeContextAttributes()
    ensures "aws_request_id" in RuntimeContext.attributes
    ensures "request_id" !in RuntimeContext.attributes
  {
    assert "request_id"[0] == 'r';
  }

  /** The `AttributeError` text for reading a missing attribute. */
  function AttributeErrorMessage(typeName: string, attribute: string): string {
    "'" + typeName + "' object has no attribute '" + attribute + "'"
  }

  /**
    The `try` block of `lambda_handler`: EventBridge-shaped events are handled directly, as
    `HandleEventBridgeEvent` states; any other event is the ASGI adapter's, whose answer is
    `asgi` (an exception it raises becomes a 500 reply).
   */
  method Route(c: Container, event: Dict, world: string -> PassWorld, uuids: seq<string>, now: DateTime,
               asgi: Result<Dict, string>)
    returns (response: LambdaResponse, ghost results: seq<SyncResult>, ghost outcome: map<string, PassOutcome>)
    requires c.Valid() && c.statusTable.Valid() && c.errorTable.Valid()
    requires UuidsAvailable(uuids, 1)
    modifies c, c.statusTable, c.errorTable, c.Services()
    ensures c.Valid() && c.statusTable.Valid() && c.errorTable.Valid()
    ensures !IsEventBridgeEvent(event) ==>
      && response == (if asgi.Success? then Proxied(asgi.value) else Direct(LambdaReply(500, InternalErrorMessage(asgi.error))))
      && Untouched(c)
    ensures IsEventBridgeEvent(event) ==> response.Direct?
    ensures IsEventBridgeEvent(event) && Decide(event).Unsupported? ==>
      response == Direct(LambdaReply(400, Decide(event).message)) && Untouched(c)
    ensures IsEventBridgeEvent(event) && Decide(event).Refused? ==>
      response == Direct(LambdaReply(500, ErrorProcessingMessage(Decide(event).message))) && Untouched(c)
    ensures IsEventBridgeEvent(event) && Decide(event).Dispatch? && c.eventHandler.Some? ==>
      var rid := Decide(event).menuEvent.restaurantId;
      var h := c.eventHandler.value;
      && MenuEventRan(rid, h.adapters, h.sync.retryDelaySeconds, world, results, outcome,
                      c.statusTable.rows, old(c.statusTable.rows))
      && ChangedOnlyBy(old(c.errorTable.rows), c.errorTable.rows, Reports(rid, Failures(results), UnknownError, uuids, now))
      && response == if exists i | 0 <= i < |results| :: results[i].success
                     then Direct(LambdaReply(200, ProcessedMessage(rid)))
                     else Direct(LambdaReply(500, SyncFailedMessage(rid)))
    ensures IsEventBridgeEvent(event) && Decide(event).Dispatch? && c.eventHandler.None? ==>
      && response.reply.statusCode == 500
      && c.statusTable.rows == old(c.statusTable.rows) && c.errorTable.rows == old(c.errorTable.rows)
  {
    if IsEventBridgeEvent(event) {
      var reply;
      reply, results, outcome := HandleEventBridgeEvent(c, event, world, uuids, now);
      return Direct(reply), results, outcome;
    }
    results, outcome := [], map[];
    match asgi
    case Success(d) => response := Proxied(d);
    case Failure(e) => response := Direct(LambdaReply(500, InternalErrorMessage(e)));
  }


  /** The attribute the Lambda runtime's context carries the request id in. */
  const RequestIdAttribute := "aws_request_id"

  /**
    `lambda_handler` with the request id read as `context.aws_request_id`: a context without it
    raises before anything is handled; otherwise the event is routed as `Route` states.
   */
  method LambdaHandler(c: Container, context: LambdaContext, event: Dict, world: string -> PassWorld,
                       uuids: seq<string>, now: DateTime, asgi: Result<Dict, string>)
    returns (response: LambdaResponse, ghost results: seq<SyncResult>, ghost outcome: map<string, PassOutcome>)
    requires c.Valid() && c.statusTable.Valid() && c.errorTable.Valid()
    requires UuidsAvailable(uuids, 1)
    modifies c, c.statusTable, c.errorTable, c.Services()
    ensures c.Valid() && c.statusTable.Valid() && c.errorTable.Valid()
    ensures RequestIdAttribute !in context.attributes ==>
      response == Uncaught(AttributeErrorMessage(context.typeName, RequestIdAttribute)) && Untouched(c)
    ensures context == RuntimeContext ==> !response.Uncaught?
    ensures RequestIdAttribute in context.attributes && !IsEventBridgeEvent(event) ==>
      && response == (if asgi.Success? then Proxied(asgi.value) else Direct(LambdaReply(500, InternalErrorMessage(asgi.error))))
      && Untouched(c)
    ensures RequestIdAttribute in context.attributes && IsEventBridgeEvent(event) ==> response.Direct?
    ensures RequestIdAttribute in context.attributes && IsEventBridgeEvent(event) && Decide(event).Unsupported? ==>
      response == Direct(LambdaReply(400, Decide(event).message)) && Untouched(c)
    ensures RequestIdAttribute in context.attributes && IsEventBridgeEvent(event) && Decide(event).Refused? ==>
      response == Direct(LambdaReply(500, ErrorProcessingMessage(Decide(event).message))) && Untouched(c)
    ensures RequestIdAttribute in context.attributes && IsEventBridgeEvent(event) && Decide(event).Dispatch? && c.eventHandler.Some? ==>
      var rid := Decide(event).menuEvent.restaurantId;
      var h := c.eventHandler.value;
      && MenuEventRan(rid, h.adapters, h.sync.retryDelaySeconds, world, results, outcome,
                      c.statusTable.rows, old(c.statusTable.rows))
      && ChangedOnlyBy(old(c.errorTable.rows), c.errorTable.rows, Reports(rid, Failures(results), UnknownError, uuids, now))
      && response == if exists i | 0 <= i < |results| :: results[i].success
                     then Direct(LambdaReply(200, ProcessedMessage(rid)))
                     else Direct(LambdaReply(500, SyncFailedMessage(rid)))
    ensures RequestIdAttribute in context.attributes && IsEventBridgeEvent(event) && Decide(event).Dispatch? && c.eventHandler.None? ==>
      && response.reply.statusCode == 500
      && c.statusTable.rows == old(c.statusTable.rows) && c.errorTable.rows == old(c.errorTable.rows)
  {
    if RequestIdAttribute !in context.attributes {
      return Uncaught(AttributeErrorMessage(context.typeName, RequestIdAttribute)), [], map[];
    }
    response, results, outcome := Route(c, event, world, uuids, now, asgi);
  }

  /**
    `lambda_handler` as written: it logs `context.request_id` before its `try`, so a context
    without that attribute, such as the Lambda runtime's, makes every invocation raise before
    the event is looked at.
   */
  method LambdaHandlerAsWritten(c: Container, context: LambdaContext, event: Dict, world: string -> PassWorld,
                                uuids: seq<string>, now: DateTime, asgi: Result<Dict, string>)
    returns (response: LambdaResponse, ghost results: seq<SyncResult>, ghost outcome: map<string, PassOutcome>)
    requires c.Valid() && c.statusTable.Valid() && c.errorTable.Valid()
    requires UuidsAvailable(uuids, 1)
    modifies c, c.statusTable, c.errorTable, c.Services()
    ensures c.Valid() && c.statusTable.Valid() && c.errorTable.Valid()
    ensures "request_id" !in context.attributes ==>
      response == Uncaught(AttributeErrorMessage(context.typeName, "request_id")) && Untouched(c)
    ensures context == RuntimeContext ==>
      response == Uncaught(AttributeErrorMessage("LambdaContext", "request_id")) && Untouched(c)
    ensures "request_id" in context.attributes ==> !response.Uncaught?
  {
    RuntimeContextAttributes();
    if "request_id" !in context.attributes {
      return Uncaught(AttributeErrorMessage(context.typeName, "request_id")), [], map[];
    }
    response, results, outcome := Route(c, event, world, uuids, now, asgi);
  }
}
