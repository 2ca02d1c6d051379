/**
  The three stores behind the service: sync statuses keyed by (restaurant_id, platform), sync
  errors keyed by (error_id, created_at), and sync operations keyed by operation_id. A table is
  a map from key to the record whose `to_dynamodb_item` form was put there; reads go back
  through `from_dynamodb_item`, and single-attribute updates are shown to be the same as
  putting the updated record. A store call may fail, which the model expresses as a
  nondeterministic choice; a failure is reported by the return value, never raised.
 */
module SyncRepositories {
  import opened Wrappers
  import opened Values
  import opened Decimals
  import opened SyncModels

  datatype StatusKey = StatusKey(restaurantId: string, platform: string)

  function StatusKeyOf(s: SyncStatus): StatusKey {
    StatusKey(s.restaurantId, s.platform)
  }

  /** Errors are addressed by id together with the isoformat text of their creation time. */
  datatype ErrorKey = ErrorKey(errorId: string, createdAt: string)

  function ErrorKeyOf(e: SyncError): ErrorKey {
    ErrorKey(e.errorId, e.createdAt.iso)
  }

  /** `SET retry_count = :count` on a stored item gives the item of the error with that count. */
  lemma RetryCountItemUpdate(e: SyncError, n: nat)
    ensures ErrorToItem(e.(retryCount := n)) == ErrorToItem(e)["retry_count" := JNum(n)]
  {
  }

  /** `SET items_processed = :count` on a stored item gives the item of the operation with that count. */
  lemma ProgressItemUpdate(op: SyncOperation, n: nat)
    ensures OperationToItem(op.(itemsProcessed := n)) == OperationToItem(op)["items_processed" := JNum(n)]
  {
  }

  /** `SET #status = :status` on a stored item gives the item of the operation with that status. */
  lemma StatusItemUpdate(op: SyncOperation, status: SyncStatusEnum)
    ensures OperationToItem(op.(status := status)) == OperationToItem(op)["status" := JStr(status.Value())]
  {
  }

  /**
    What a query returns: the values stored at `keys`, each once, stopping after `limit` of them.
    `picked` records the key each result was read from.
   */
  method Collect<K, V>(view: map<K, V>, keys: set<K>, limit: nat) returns (r: seq<V>, ghost picked: seq<K>)
    requires keys <= view.Keys
    ensures |r| == |picked| == if |keys| < limit then |keys| else limit
    ensures forall i | 0 <= i < |r| :: picked[i] in keys && r[i] == view[picked[i]]
    ensures forall i, j | 0 <= i < j < |r| :: picked[i] != picked[j]
    ensures |keys| <= limit ==> forall k | k in keys :: k in picked
  {
    var pending := keys;
    r, picked := [], [];
    while pending != {} && |r| < limit
      invariant pending <= keys
      invariant |pending| + |r| == |keys|
      invariant |r| == |picked| <= limit
      invariant forall i | 0 <= i < |r| :: picked[i] in keys && picked[i] !in pending && r[i] == view[picked[i]]
      invariant forall k | k in keys && k !in pending :: k in picked
      invariant forall i, j | 0 <= i < j < |r| :: picked[i] != picked[j]
      decreases pending
    {
      var k :| k in pending;
      r, picked := r + [view[k]], picked + [k];
      pending := pending - {k};
    }
  }

  /**
    The items one `query` call hands back. DynamoDB ends a page at 1 MB of items, and the
    repositories read `Items` once without following `LastEvaluatedKey`, so a listing can stop
    anywhere along the rows the query matched; where it stops is left open.
   */
  method FirstPage<V>(matched: seq<V>) returns (page: seq<V>)
    ensures page <= matched
  {
    var n: int := *;
    page := if 0 <= n < |matched| then matched[..n] else matched;
  }

  /** The client's parameter validation message for `Limit=None`. */
  const LimitNoneMessage := "Parameter validation failed:\nInvalid type for parameter Limit, value: None, type: <class 'NoneType'>, valid types: <class 'int'>"
  /** The text around the value in its message for a `Limit` below 1. */
  const LimitRangePrefix := "Parameter validation failed:\nInvalid value for parameter Limit, value: "
  const LimitRangeSuffix := ", valid min value: 1"

  /**
    What the DynamoDB client's parameter validation raises for a `Limit` that is None or below
    1, before any request is sent. It is not a `ClientError`, so no repository handler catches it.
   */
  function LimitError(limit: Option<int>): string {
    match limit
    case None => LimitNoneMessage
    case Some(n) => LimitRangePrefix + IntText(n) + LimitRangeSuffix
  }

  class StatusRepository {
    const tableName: string
    var rows: map<StatusKey, SyncStatus>

    /** Every row is stored under its own key. */
    ghost predicate Valid()
      reads this
    {
      forall k | k in rows :: StatusKeyOf(rows[k]) == k
    }

    constructor (tableName: string)
      ensures Valid() && this.tableName == tableName && rows == map[]
    {
      this.tableName := tableName;
      rows := map[];
    }

    /** The keys of the rows that belong to one restaurant. */
    function KeysFor(restaurantId: string): (ks: set<StatusKey>)
      reads this
      ensures forall k :: k in ks <==> k in rows && k.restaurantId == restaurantId
    {
      set k | k in rows && k.restaurantId == restaurantId
    }

    /** `get_status`: None for an absent key or a failed read, the stored status otherwise. */
    method GetStatus(restaurantId: string, platform: string) returns (r: Option<SyncStatus>)
      requires Valid()
      ensures StatusKey(restaurantId, platform) !in rows ==> r.None?
      ensures r.Some? ==> StatusKey(restaurantId, platform) in rows && r.value == rows[StatusKey(restaurantId, platform)]
      ensures r.Some? ==> r.value.restaurantId == restaurantId && r.value.platform == platform
    {
      var ok: bool := *;
      var key := StatusKey(restaurantId, platform);
      if !ok || key !in rows {
        return None;
      }
      StatusRoundTrip(rows[key]);
      return Some(StatusFromItem(StatusToItem(rows[key])).value);
    }

    /** `save_status`: on success the row at the status's key is replaced and no other row changes. */
    method SaveStatus(s: SyncStatus) returns (ok: bool)
      requires Valid()
      modifies this
      ensures Valid()
      ensures rows == if ok then old(rows)[StatusKeyOf(s) := s] else old(rows)
    {
      ok := *;
      if ok {
        rows := rows[StatusKeyOf(s) := s];
      }
    }

    /** `s` lists the restaurant's rows, each exactly once. */
    ghost predicate AllRowsOf(restaurantId: string, s: seq<SyncStatus>)
      reads this
    {
      && (forall i | 0 <= i < |s| :: StatusKeyOf(s[i]) in KeysFor(restaurantId) && rows[StatusKeyOf(s[i])] == s[i])
      && (forall i, j | 0 <= i < j < |s| :: StatusKeyOf(s[i]) != StatusKeyOf(s[j]))
      && (forall k | k in KeysFor(restaurantId) :: rows[k] in s)
    }

    /**
      `list_statuses_for_restaurant`: the query matches every row of the restaurant
      (`matched`); what comes back is the one page read of them, or `[]` when the query fails.
     */
    method ListStatusesForRestaurant(restaurantId: string) returns (r: seq<SyncStatus>, ghost matched: seq<SyncStatus>)
      requires Valid()
      ensures AllRowsOf(restaurantId, matched)
      ensures r <= matched
      ensures forall i | 0 <= i < |r| :: StatusKeyOf(r[i]) in rows && rows[StatusKeyOf(r[i])] == r[i]
      ensures forall i | 0 <= i < |r| :: r[i].restaurantId == restaurantId
      ensures forall i, j | 0 <= i < j < |r| :: StatusKeyOf(r[i]) != StatusKeyOf(r[j])
    {
      var keys := KeysFor(restaurantId);
      var all, picked := Collect(rows, keys, |keys|);
      assert forall i | 0 <= i < |all| :: StatusKeyOf(all[i]) == picked[i];
      forall k | k in keys
        ensures rows[k] in all
      {
        var i :| 0 <= i < |picked| && picked[i] == k;
        assert all[i] == rows[k];
      }
      matched := all;
      var ok: bool := *;
      if !ok {
        return [], matched;
      }
      r := FirstPage(all);
    }

    /** `delete_status`: on success only the row at that key is removed. */
    method DeleteStatus(restaurantId: string, platform: string) returns (ok: bool)
      requires Valid()
      modifies this
      ensures Valid()
      ensures rows == if ok then old(rows) - {StatusKey(restaurantId, platform)} else old(rows)
    {
      ok := *;
      if ok {
        rows := rows - {StatusKey(restaurantId, platform)};
      }
    }
  }

  /** The keys of the errors of one restaurant. */
  function ErrorKeysFor(rows: map<ErrorKey, SyncError>, restaurantId: string): (ks: set<ErrorKey>)
    ensures forall k :: k in ks <==> k in rows && rows[k].restaurantId == restaurantId
  {
    set k | k in rows && rows[k].restaurantId == restaurantId
  }

  /**
    What a query of `rows` with `Limit=limit` matches: `limit` distinct stored errors of the
    restaurant, or all of them when there are fewer.
   */
  ghost predicate Matches(rows: map<ErrorKey, SyncError>, restaurantId: string, limit: nat, s: seq<SyncError>) {
    var keys := ErrorKeysFor(rows, restaurantId);
    && |s| == (if |keys| < limit then |keys| else limit)
    && (forall i | 0 <= i < |s| :: ErrorKeyOf(s[i]) in keys && rows[ErrorKeyOf(s[i])] == s[i])
    && (forall i, j | 0 <= i < j < |s| :: ErrorKeyOf(s[i]) != ErrorKeyOf(s[j]))
    && (|keys| <= limit ==> forall k | k in keys :: rows[k] in s)
  }

  /** Every error on a prefix of what a query matched is a stored error of the restaurant, read once. */
  lemma MatchedPrefix(rows: map<ErrorKey, SyncError>, restaurantId: string, limit: nat, matched: seq<SyncError>,
                      page: seq<SyncError>)
    requires Matches(rows, restaurantId, limit, matched) && page <= matched
    ensures forall i | 0 <= i < |page| ::
      ErrorKeyOf(page[i]) in rows && rows[ErrorKeyOf(page[i])] == page[i] && page[i].restaurantId == restaurantId
    ensures forall i, j | 0 <= i < j < |page| :: ErrorKeyOf(page[i]) != ErrorKeyOf(page[j])
    ensures |page| <= limit
  {
    assert forall i | 0 <= i < |page| :: page[i] == matched[i];
  }

  class ErrorRepository {
    const tableName: string
    var rows: map<ErrorKey, SyncError>

    ghost predicate Valid()
      reads this
    {
      forall k | k in rows :: ErrorKeyOf(rows[k]) == k
    }

    constructor (tableName: string)
      ensures Valid() && this.tableName == tableName && rows == map[]
    {
      this.tableName := tableName;
      rows := map[];
    }

    /** The keys of the errors recorded for one restaurant (the secondary-index partition). */
    function KeysFor(restaurantId: string): (ks: set<ErrorKey>)
      reads this
      ensures forall k :: k in ks <==> k in rows && rows[k].restaurantId == restaurantId
    {
      ErrorKeysFor(rows, restaurantId)
    }

    /** `save_error`: on success the row at the error's key is replaced and no other row changes. */
    method SaveError(e: SyncError) returns (ok: bool)
      requires Valid()
      modifies this
      ensures Valid()
      ensures rows == if ok then old(rows)[ErrorKeyOf(e) := e] else old(rows)
    {
      ok := *;
      if ok {
        rows := rows[ErrorKeyOf(e) := e];
      }
    }

    /** `get_error`: None for an absent key or a failed read, the stored error otherwise. */
    method GetError(errorId: string, createdAt: DateTime) returns (r: Option<SyncError>)
      requires Valid()
      ensures ErrorKey(errorId, createdAt.iso) !in rows ==> r.None?
      ensures r.Some? ==> ErrorKey(errorId, createdAt.iso) in rows && r.value == rows[ErrorKey(errorId, createdAt.iso)]
      ensures r.Some? ==> r.value.errorId == errorId && r.value.createdAt == createdAt
    {
      var ok: bool := *;
      var key := ErrorKey(errorId, createdAt.iso);
      if !ok || key !in rows {
        return None;
      }
      ErrorRoundTrip(rows[key]);
      return Some(ErrorFromItem(ErrorToItem(rows[key])).value);
    }

    /**
      `list_errors_for_restaurant`: a `limit` that is None or below 1 is refused by the client's
      parameter validation, which escapes as an error. Otherwise the query matches `limit` of the
      restaurant's errors, or all of them when there are fewer (`matched`), and what comes back
      is the one page read of them, or `[]` when the query fails.
     */
    method ListErrorsForRestaurant(restaurantId: string, limit: Option<int> := Some(50))
      returns (r: Result<seq<SyncError>, string>, ghost matched: seq<SyncError>)
      requires Valid()
      ensures r.Failure? <==> limit.None? || limit.value < 1
      ensures r.Failure? ==> r.error == LimitError(limit) && matched == []
      ensures r.Success? ==> Matches(rows, restaurantId, limit.value, matched) && r.value <= matched
    {
      if limit.None? || limit.value < 1 {
        return Failure(LimitError(limit)), [];
      }
      var all := Match(restaurantId, limit.value);
      matched := all;
      var ok: bool := *;
      if !ok {
        return Success([]), matched;
      }
      var page := FirstPage(all);
      r := Success(page);
    }

    /** The errors a query of the restaurant with `Limit=limit` matches. */
    method Match(restaurantId: string, limit: nat) returns (all: seq<SyncError>)
      requires Valid()
      ensures Matches(rows, restaurantId, limit, all)
    {
      var keys := ErrorKeysFor(rows, restaurantId);
      ghost var picked;
      all, picked := Collect(rows, keys, limit);
      assert forall i | 0 <= i < |all| :: ErrorKeyOf(all[i]) == picked[i];
      if |keys| <= limit {
        forall k | k in keys
          ensures rows[k] in all
        {
          var i :| 0 <= i < |picked| && picked[i] == k;
          assert all[i] == rows[k];
        }
      }
    }

    /** `update_retry_count`: on success only the `retry_count` attribute of that row changes. */
    method UpdateRetryCount(errorId: string, createdAt: DateTime, retryCount: nat) returns (ok: bool)
      requires Valid()
      modifies this
      ensures Valid()
      ensures var k := ErrorKey(errorId, createdAt.iso);
        rows == if ok && k in old(rows) then old(rows)[k := old(rows)[k].(retryCount := retryCount)] else old(rows)
    {
      ok := *;
      var k := ErrorKey(errorId, createdAt.iso);
      if ok && k in rows {
        rows := rows[k := rows[k].(retryCount := retryCount)];
      }
    }
  }

  class OperationRepository {
    const tableName: string
    var rows: map<string, SyncOperation>

    /** Every row is stored under its own id and satisfies the record's validators. */
    ghost predicate Valid()
      reads this
    {
      forall k | k in rows :: rows[k].operationId == k && ValidOperation(rows[k])
    }

    constructor (tableName: string)
      ensures Valid() && this.tableName == tableName && rows == map[]
    {
      this.tableName := tableName;
      rows := map[];
    }

    function KeysFor(restaurantId: string): (ks: set<string>)
      reads this
      ensures forall k :: k in ks <==> k in rows && rows[k].restaurantId == restaurantId
    {
      set k | k in rows && rows[k].restaurantId == restaurantId
    }

    /** `save_operation`: on success the row at the operation's id is replaced and no other row changes. */
    method SaveOperation(op: SyncOperation) returns (ok: bool)
      requires Valid() && ValidOperation(op)
      modifies this
      ensures Valid()
      ensures rows == if ok then old(rows)[op.operationId := op] else old(rows)
    {
      ok := *;
      if ok {
        rows := rows[op.operationId := op];
      }
    }

    /** `get_operation`: None for an absent id or a failed read, the stored operation otherwise. */
    method GetOperation(operationId: string) returns (r: Option<SyncOperation>)
      requires Valid()
      ensures operationId !in rows ==> r.None?
      ensures r.Some? ==> operationId in rows && r.value == rows[operationId] && r.value.operationId == operationId
      ensures r.Some? ==> ValidOperation(r.value)
    {
      var ok: bool := *;
      if !ok || operationId !in rows {
        return None;
      }
      OperationRoundTrip(rows[operationId]);
      return Some(OperationFromItem(OperationToItem(rows[operationId])).value);
    }

    /** `update_progress`: on success only the `items_processed` attribute of that row changes. */
    method UpdateProgress(operationId: string, itemsProcessed: nat) returns (ok: bool)
      requires Valid()
      modifies this
      ensures Valid()
      ensures rows == if ok && operationId in old(rows)
                      then old(rows)[operationId := old(rows)[operationId].(itemsProcessed := itemsProcessed)]
                      else old(rows)
    {
      ok := *;
      if ok && operationId in rows {
        rows := rows[operationId := rows[operationId].(itemsProcessed := itemsProcessed)];
      }
    }

    /** `update_status`: on success only the `status` attribute of that row changes. */
    method UpdateStatus(operationId: string, status: SyncStatusEnum) returns (ok: bool)
      requires Valid()
      modifies this
      ensures Valid()
      ensures rows == if ok && operationId in old(rows)
                      then old(rows)[operationId := old(rows)[operationId].(status := status)]
                      else old(rows)
    {
      ok := *;
      if ok && operationId in rows {
        rows := rows[operationId := rows[operationId].(status := status)];
      }
    }

    /** `delete_operation`: on success only that row is removed. */
    method DeleteOperation(operationId: string) returns (ok: bool)
      requires Valid()
      modifies this
      ensures Valid()
      ensures rows == if ok then old(rows) - {operationId} else old(rows)
    {
      ok := *;
      if ok {
        rows := rows - {operationId};
      }
    }

    /** `s` lists the restaurant's operations, each exactly once. */
    ghost predicate AllOf(restaurantId: string, s: seq<SyncOperation>)
      reads this
    {
      && (forall i | 0 <= i < |s| :: s[i].operationId in KeysFor(restaurantId) && rows[s[i].operationId] == s[i])
      && (forall i, j | 0 <= i < j < |s| :: s[i].operationId != s[j].operationId)
      && (forall k | k in KeysFor(restaurantId) :: rows[k] in s)
    }

    /**
      `list_operations_for_restaurant`: the query matches every operation of the restaurant
      (`matched`); what comes back is the one page read of them, or `[]` when the query fails.
     */
    method ListOperationsForRestaurant(restaurantId: string) returns (r: seq<SyncOperation>, ghost matched: seq<SyncOperation>)
      requires Valid()
      ensures AllOf(restaurantId, matched)
      ensures r <= matched
      ensures forall i | 0 <= i < |r| :: r[i].operationId in rows && rows[r[i].operationId] == r[i]
      ensures forall i | 0 <= i < |r| :: r[i].restaurantId == restaurantId
      ensures forall i, j | 0 <= i < j < |r| :: r[i].operationId != r[j].operationId
    {
      var keys := KeysFor(restaurantId);
      var all, picked := Collect(rows, keys, |keys|);
      assert forall i | 0 <= i < |all| :: all[i].operationId == picked[i];
      forall k | k in keys
        ensures rows[k] in all
      {
        var i :| 0 <= i < |picked| && picked[i] == k;
        assert all[i] == rows[k];
      }
      matched := all;
      var ok: bool := *;
      if !ok {
        return [], matched;
      }
      r := FirstPage(all);
    }
  }
}
