/**
  Sync status, error and operation records, their validators, and their conversion to and
  from the store-item form (a dict of attribute values).
 */
module SyncModels {
  import opened Wrappers
  import opened Values

  datatype SyncStatusEnum = Pending | InProgress | Completed | Failed {
    /** `.value`, the text stored in items. */
    function Value(): string {
      match this
      case Pending => "pending"
      case InProgress => "in_progress"
      case Completed => "completed"
      case Failed => "failed"
    }
  }

  /** `SyncStatusEnum(s)`: None where Python raises ValueError. */
  function ParseStatusEnum(s: string): (r: Option<SyncStatusEnum>)
    ensures r.Some? ==> r.value.Value() == s
  {
    if s == "pending" then Some(Pending)
    else if s == "in_progress" then Some(InProgress)
    else if s == "completed" then Some(Completed)
    else if s == "failed" then Some(Failed)
    else None
  }

  lemma StatusEnumRoundTrip(e: SyncStatusEnum)
    ensures ParseStatusEnum(e.Value()) == Some(e)
  {
  }

  /** Why a record could not be built: Python's KeyError, ValueError or ValidationError. */
  datatype ModelError = MissingKey(key: string) | InvalidField(field: string)

  // ---------------------------------------------------------------------------------------
  // Field readers shared by the three from_dynamodb_item conversions.

  /** `item[key]` where the model field is `str`. */
  function RequiredString(item: Dict, key: string): (r: Result<string, ModelError>)
    ensures r.Success? <==> key in item && item[key].JStr?
    ensures r.Success? ==> item[key] == JStr(r.value)
  {
    if key !in item then Failure(MissingKey(key))
    else if item[key].JStr? then Success(item[key].s)
    else Failure(InvalidField(key))
  }

  /** An optional `str | None` field read only if the key is present. */
  function OptionalString(item: Dict, key: string): (r: Result<Option<string>, ModelError>)
    ensures key !in item ==> r == Success(None)
    ensures key in item ==> (r.Success? <==> item[key].JStr? || item[key].JNull?)
    ensures key in item && r.Success? && r.value.Some? ==> item[key] == JStr(r.value.value)
  {
    if key !in item then Success(None)
    else if item[key].JNull? then Success(None)
    else if item[key].JStr? then Success(Some(item[key].s))
    else Failure(InvalidField(key))
  }

  function RequiredTime(item: Dict, key: string): (r: Result<DateTime, ModelError>)
    ensures r.Success? <==> key in item && item[key].JStr?
    ensures r.Success? ==> item[key] == JStr(r.value.iso)
  {
    match RequiredString(item, key)
    case Success(s) => Success(DateTime(s))
    case Failure(e) => Failure(e)
  }

  // ---------------------------------------------------------------------------------------
  // SyncStatus

  /** One row of the status table, keyed by (restaurant_id, platform). */
  datatype SyncStatus = SyncStatus(
    restaurantId: string,
    platform: string,
    status: SyncStatusEnum,
    lastSyncTime: Option<DateTime>,
    itemCount: Option<nat>,
    externalMenuId: Option<string>)

  /** `SyncStatus(...)` with the optional fields defaulting to None; a negative item_count is rejected. */
  function NewSyncStatus(
    restaurantId: string, platform: string, status: SyncStatusEnum,
    lastSyncTime: Option<DateTime> := None, itemCount: Option<int> := None,
    externalMenuId: Option<string> := None
  ): (r: Result<SyncStatus, ModelError>)
    ensures r.Success? <==> (itemCount.None? || itemCount.value >= 0)
    ensures r.Success? ==> && r.value.restaurantId == restaurantId && r.value.platform == platform
                           && r.value.status == status && r.value.lastSyncTime == lastSyncTime
                           && r.value.externalMenuId == externalMenuId
                           && (r.value.itemCount.Some? <==> itemCount.Some?)
                           && (itemCount.Some? ==> r.value.itemCount.value == itemCount.value)
    ensures r.Failure? ==> r.error == InvalidField("item_count")
  {
    if itemCount.Some? && itemCount.value < 0 then Failure(InvalidField("item_count"))
    else
      var count: Option<nat> := if itemCount.Some? then Some(itemCount.value as nat) else None;
      Success(SyncStatus(restaurantId, platform, status, lastSyncTime, count, externalMenuId))
  }

  /** `to_dynamodb_item`: the three key/status attributes, plus each optional field that is not None. */
  function StatusToItem(s: SyncStatus): (item: Dict)
    ensures item.Keys == {"restaurant_id", "platform", "status"}
                         + (if s.lastSyncTime.Some? then {"last_sync_time"} else {})
                         + (if s.itemCount.Some? then {"item_count"} else {})
                         + (if s.externalMenuId.Some? then {"external_menu_id"} else {})
    ensures item["restaurant_id"] == JStr(s.restaurantId) && item["platform"] == JStr(s.platform)
    ensures item["status"] == JStr(s.status.Value())
  {
    var base := map["restaurant_id" := JStr(s.restaurantId), "platform" := JStr(s.platform),
                     "status" := JStr(s.status.Value())];
    var withTime := if s.lastSyncTime.Some? then base["last_sync_time" := JStr(s.lastSyncTime.value.iso)] else base;
    var withCount := if s.itemCount.Some? then withTime["item_count" := JNum(s.itemCount.value)] else withTime;
    if s.externalMenuId.Some? then withCount["external_menu_id" := JStr(s.externalMenuId.value)] else withCount
  }

  function OptionalCount(item: Dict, key: string): (r: Result<Option<nat>, ModelError>)
    ensures key !in item ==> r == Success(None)
    ensures key in item && r.Success? && r.value.Some? ==> item[key] == JNum(r.value.value)
    ensures key in item && r.Success? && r.value.None? ==> item[key] == JNull
  {
    if key !in item then Success(None)
    else match item[key]
      case JNull => Success(None)
      case JNum(n) => if n >= 0 then Success(Some(n as nat)) else Failure(InvalidField(key))
      case _ => Failure(InvalidField(key))
  }

  /** `from_dynamodb_item`: absent optional keys become None; a missing or ill-typed field fails. */
  function StatusFromItem(item: Dict): (r: Result<SyncStatus, ModelError>)
    ensures "restaurant_id" !in item ==> r == Failure(MissingKey("restaurant_id"))
    ensures r.Success? ==> && "restaurant_id" in item && item["restaurant_id"] == JStr(r.value.restaurantId)
                           && "platform" in item && item["platform"] == JStr(r.value.platform)
                           && "status" in item && item["status"] == JStr(r.value.status.Value())
    ensures r.Success? ==> && (r.value.lastSyncTime.Some? <==> "last_sync_time" in item)
                           && (r.value.lastSyncTime.Some? ==> item["last_sync_time"] == JStr(r.value.lastSyncTime.value.iso))
    ensures r.Success? && r.value.itemCount.Some? ==> "item_count" in item && item["item_count"] == JNum(r.value.itemCount.value)
    ensures r.Success? && r.value.externalMenuId.Some? ==>
              "external_menu_id" in item && item["external_menu_id"] == JStr(r.value.externalMenuId.value)
  {
    var rid :- RequiredString(item, "restaurant_id");
    var platform :- RequiredString(item, "platform");
    var statusText :- RequiredString(item, "status");
    var status :- match ParseStatusEnum(statusText)
                  case Some(e) => Success(e)
                  case None => Failure(InvalidField("status"));
    var time :- if "last_sync_time" in item then
                  match RequiredTime(item, "last_sync_time")
                  case Success(t) => Success(Some(t))
                  case Failure(e) => Failure(e)
                else Success(None);
    var count :- OptionalCount(item, "item_count");
    var menuId :- OptionalString(item, "external_menu_id");
    Success(SyncStatus(rid, platform, status, time, count, menuId))
  }

  /** Writing a status and reading it back gives the same status. */
  lemma StatusRoundTrip(s: SyncStatus)
    ensures StatusFromItem(StatusToItem(s)) == Success(s)
  {
  }

  /** Every attribute `to_dynamodb_item` writes for a parsed item is the one the item held. */
  lemma StatusItemRoundTrip(item: Dict)
    requires StatusFromItem(item).Success?
    ensures var back := StatusToItem(StatusFromItem(item).value);
      back.Keys <= item.Keys && forall k :: k in back ==> back[k] == item[k]
  {
  }

  // ---------------------------------------------------------------------------------------
  // SyncError

  /** One row of the error table, keyed by (error_id, created_at). */
  datatype SyncError = SyncError(
    errorId: string,
    createdAt: DateTime,
    restaurantId: string,
    platform: string,
    errorDetails: string,
    menuSnapshot: Option<Dict>,
    retryCount: nat)

  /** `SyncError(...)`: no snapshot and retry_count 0 by default; a negative retry_count is rejected. */
  function NewSyncError(
    errorId: string, createdAt: DateTime, restaurantId: string, platform: string,
    errorDetails: string, menuSnapshot: Option<Dict> := None, retryCount: int := 0
  ): (r: Result<SyncError, ModelError>)
    ensures r.Success? <==> retryCount >= 0
    ensures r.Success? ==> && r.value.errorId == errorId && r.value.createdAt == createdAt
                           && r.value.restaurantId == restaurantId && r.value.platform == platform
                           && r.value.errorDetails == errorDetails
                           && r.value.menuSnapshot == menuSnapshot && r.value.retryCount == retryCount
    ensures r.Failure? ==> r.error == InvalidField("retry_count")
  {
    if retryCount < 0 then Failure(InvalidField("retry_count"))
    else Success(SyncError(errorId, createdAt, restaurantId, platform, errorDetails, menuSnapshot, retryCount))
  }

  lemma NewSyncErrorDefaults(errorId: string, createdAt: DateTime, restaurantId: string, platform: string, errorDetails: string)
    ensures var r := NewSyncError(errorId, createdAt, restaurantId, platform, errorDetails);
      r.Success? && r.value.retryCount == 0 && r.value.menuSnapshot.None?
  {
  }

  /** `to_dynamodb_item`: retry_count is always written, menu_snapshot only when present. */
  function ErrorToItem(e: SyncError): (item: Dict)
    ensures item.Keys == {"error_id", "created_at", "restaurant_id", "platform", "error_details", "retry_count"}
                         + (if e.menuSnapshot.Some? then {"menu_snapshot"} else {})
    ensures item["retry_count"] == JNum(e.retryCount)
    ensures item["error_id"] == JStr(e.errorId) && item["created_at"] == JStr(e.createdAt.iso)
  {
    var base := map["error_id" := JStr(e.errorId), "created_at" := JStr(e.createdAt.iso),
                    "restaurant_id" := JStr(e.restaurantId), "platform" := JStr(e.platform),
                    "error_details" := JStr(e.errorDetails), "retry_count" := JNum(e.retryCount)];
    if e.menuSnapshot.Some? then base["menu_snapshot" := JObj(e.menuSnapshot.value)] else base
  }

  /** `from_dynamodb_item`: a missing retry_count reads as 0, a missing menu_snapshot as None. */
  function ErrorFromItem(item: Dict): (r: Result<SyncError, ModelError>)
    ensures "error_id" !in item ==> r == Failure(MissingKey("error_id"))
    ensures r.Success? ==> && "error_id" in item && item["error_id"] == JStr(r.value.errorId)
                           && "created_at" in item && item["created_at"] == JStr(r.value.createdAt.iso)
                           && "restaurant_id" in item && item["restaurant_id"] == JStr(r.value.restaurantId)
                           && "platform" in item && item["platform"] == JStr(r.value.platform)
                           && "error_details" in item && item["error_details"] == JStr(r.value.errorDetails)
    ensures r.Success? ==> ("retry_count" in item ==> item["retry_count"] == JNum(r.value.retryCount))
                           && ("retry_count" !in item ==> r.value.retryCount == 0)
    ensures r.Success? && r.value.menuSnapshot.Some? ==>
              "menu_snapshot" in item && item["menu_snapshot"] == JObj(r.value.menuSnapshot.value)
  {
    var id :- RequiredString(item, "error_id");
    var created :- RequiredTime(item, "created_at");
    var rid :- RequiredString(item, "restaurant_id");
    var platform :- RequiredString(item, "platform");
    var details :- RequiredString(item, "error_details");
    var retries :- match Get(item, "retry_count", JNum(0))
                   case JNum(n) => if n >= 0 then Success(n as nat) else Failure(InvalidField("retry_count"))
                   case _ => Failure(InvalidField("retry_count"));
    var snapshot :- if "menu_snapshot" !in item then Success(None)
                    else match item["menu_snapshot"]
                      case JObj(m) => Success(Some(m))
                      case JNull => Success(None)
                      case _ => Failure(InvalidField("menu_snapshot"));
    Success(SyncError(id, created, rid, platform, details, snapshot, retries))
  }

  lemma ErrorRoundTrip(e: SyncError)
    ensures ErrorFromItem(ErrorToItem(e)) == Success(e)
  {
  }

  /** Every attribute `to_dynamodb_item` writes for a parsed item is the one the item held. */
  lemma ErrorItemRoundTrip(item: Dict)
    requires ErrorFromItem(item).Success? && "retry_count" in item
    ensures var back := ErrorToItem(ErrorFromItem(item).value);
      back.Keys <= item.Keys && forall k :: k in back ==> back[k] == item[k]
  {
  }

  // ---------------------------------------------------------------------------------------
  // SyncOperation

  /** A progress record keyed by operation_id. */
  datatype SyncOperation = SyncOperation(
    operationId: string,
    restaurantId: string,
    platform: string,
    status: SyncStatusEnum,
    totalItems: nat,
    itemsProcessed: nat)

  /** The validators' guarantee on a constructed operation. */
  predicate ValidOperation(op: SyncOperation) {
    op.totalItems > 0
  }

  /** `SyncOperation(...)`: `total_items > 0` and `items_processed >= 0`, the latter defaulting to 0. */
  function NewSyncOperation(
    operationId: string, restaurantId: string, platform: string, status: SyncStatusEnum,
    totalItems: int, itemsProcessed: int := 0
  ): (r: Result<SyncOperation, ModelError>)
    ensures r.Success? <==> totalItems > 0 && itemsProcessed >= 0
    ensures r.Success? ==> ValidOperation(r.value)
    ensures r.Success? ==> r.value.totalItems == totalItems && r.value.itemsProcessed == itemsProcessed
    ensures r.Success? ==> && r.value.operationId == operationId && r.value.restaurantId == restaurantId
                           && r.value.platform == platform && r.value.status == status
    ensures totalItems <= 0 ==> r == Failure(InvalidField("total_items"))
  {
    if totalItems <= 0 then Failure(InvalidField("total_items"))
    else if itemsProcessed < 0 then Failure(InvalidField("items_processed"))
    else Success(SyncOperation(operationId, restaurantId, platform, status, totalItems, itemsProcessed))
  }

  /** `progress_percentage`: processed / total * 100, and 0 for a total of 0. */
  function ProgressPercentage(op: SyncOperation): (p: real)
    ensures p >= 0.0
    ensures p == 0.0 <==> op.totalItems == 0 || op.itemsProcessed == 0
    ensures op.totalItems > 0 ==> (p == 100.0 <==> op.itemsProcessed == op.totalItems)
    ensures op.totalItems > 0 ==> (p <= 100.0 <==> op.itemsProcessed <= op.totalItems)
  {
    if op.totalItems == 0 then 0.0
    else
      var ratio := op.itemsProcessed as real / op.totalItems as real;
      RatioFacts(op.itemsProcessed, op.totalItems);
      ratio * 100.0
  }

  lemma RatioFacts(k: nat, n: nat)
    requires n > 0
    ensures var q := k as real / n as real;
      && q >= 0.0 && (q == 0.0 <==> k == 0) && (q == 1.0 <==> k == n) && (q <= 1.0 <==> k <= n)
  {
    var q := k as real / n as real;
    assert q * n as real == k as real;
  }

  lemma ProgressExamples(op: SyncOperation)
    requires op.totalItems == 100
    ensures op.itemsProcessed == 42 ==> ProgressPercentage(op) == 42.0
    ensures op.itemsProcessed == 0 ==> ProgressPercentage(op) == 0.0
    ensures op.itemsProcessed == 100 ==> ProgressPercentage(op) == 100.0
  {
  }

  /** `to_dynamodb_item`: all six attributes, status as its text. */
  function OperationToItem(op: SyncOperation): (item: Dict)
    ensures item.Keys == {"operation_id", "restaurant_id", "platform", "status", "total_items", "items_processed"}
    ensures item["status"] == JStr(op.status.Value()) && item["items_processed"] == JNum(op.itemsProcessed)
    ensures item["total_items"] == JNum(op.totalItems)
  {
    map["operation_id" := JStr(op.operationId), "restaurant_id" := JStr(op.restaurantId),
        "platform" := JStr(op.platform), "status" := JStr(op.status.Value()),
        "total_items" := JNum(op.totalItems), "items_processed" := JNum(op.itemsProcessed)]
  }

  /** `from_dynamodb_item`: a missing items_processed reads as 0; the validators run again. */
  function OperationFromItem(item: Dict): (r: Result<SyncOperation, ModelError>)
    ensures r.Success? ==> ValidOperation(r.value)
    ensures "total_items" !in item ==> r.Failure?
    ensures r.Success? ==> && "operation_id" in item && item["operation_id"] == JStr(r.value.operationId)
                           && "restaurant_id" in item && item["restaurant_id"] == JStr(r.value.restaurantId)
                           && "platform" in item && item["platform"] == JStr(r.value.platform)
                           && "status" in item && item["status"] == JStr(r.value.status.Value())
                           && "total_items" in item && item["total_items"] == JNum(r.value.totalItems)
    ensures r.Success? ==> ("items_processed" in item ==> item["items_processed"] == JNum(r.value.itemsProcessed))
                           && ("items_processed" !in item ==> r.value.itemsProcessed == 0)
  {
    var id :- RequiredString(item, "operation_id");
    var rid :- RequiredString(item, "restaurant_id");
    var platform :- RequiredString(item, "platform");
    var statusText :- RequiredString(item, "status");
    var status :- match ParseStatusEnum(statusText)
                  case Some(e) => Success(e)
                  case None => Failure(InvalidField("status"));
    var total :- if "total_items" !in item then Failure(MissingKey("total_items"))
                 else match item["total_items"]
                   case JNum(n) => if n > 0 then Success(n as nat) else Failure(InvalidField("total_items"))
                   case _ => Failure(InvalidField("total_items"));
    var processed :- match Get(item, "items_processed", JNum(0))
                     case JNum(n) => if n >= 0 then Success(n as nat) else Failure(InvalidField("items_processed"))
                     case _ => Failure(InvalidField("items_processed"));
    Success(SyncOperation(id, rid, platform, status, total, processed))
  }

  lemma OperationRoundTrip(op: SyncOperation)
    requires ValidOperation(op)
    ensures OperationFromItem(OperationToItem(op)) == Success(op)
  {
  }

  /** Every attribute `to_dynamodb_item` writes for a parsed item is the one the item held. */
  lemma OperationItemRoundTrip(item: Dict)
    requires OperationFromItem(item).Success? && "items_processed" in item
    ensures var back := OperationToItem(OperationFromItem(item).value);
      back.Keys <= item.Keys && forall k :: k in back ==> back[k] == item[k]
  {
  }
}
