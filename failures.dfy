/**
  Recording the failed passes of a batch sync in the error queue, as the EventBridge handler
  and the admin full refresh both do: one `record_sync_error` call per failed result, in
  result order, with the result's message or a fixed fallback text.
 */
module FailureReports {
  import opened Wrappers
  import opened Values
  import opened Text
  import opened SyncModels
  import opened SyncRepositories
  import opened SyncServices
  import opened ErrorServices

  /** `[r for r in results if not r.success]`. */
  function Failures(results: seq<SyncResult>): (fs: seq<SyncResult>)
    ensures |fs| <= |results|
    ensures forall r :: r in fs <==> r in results && !r.success
  {
    if results == [] then []
    else
      var last := results[|results| - 1];
      Failures(results[..|results| - 1]) + (if last.success then [] else [last])
  }

  /** `[r for r in results if r.success]`. */
  function Successes(results: seq<SyncResult>): (ss: seq<SyncResult>)
    ensures |ss| <= |results|
    ensures forall r :: r in ss <==> r in results && r.success
  {
    if results == [] then []
    else
      var last := results[|results| - 1];
      Successes(results[..|results| - 1]) + (if last.success then [last] else [])
  }

  /** Every result is a success or a failure, never both. */
  lemma {:induction false} SuccessesAndFailuresPartition(results: seq<SyncResult>)
    ensures |Successes(results)| + |Failures(results)| == |results|
  {
    if results != [] {
      SuccessesAndFailuresPartition(results[..|results| - 1]);
    }
  }

  /** `error_message or fallback`: a missing or empty message gives the fallback. */
  function Details(r: SyncResult, fallback: string): (d: string)
    ensures r.errorMessage.Some? && r.errorMessage.value != [] ==> d == r.errorMessage.value
    ensures r.errorMessage.None? || r.errorMessage.value == [] ==> d == fallback
  {
    if r.errorMessage.Some? && r.errorMessage.value != [] then r.errorMessage.value else fallback
  }

  predicate UuidsAvailable(uuids: seq<string>, n: nat) {
    n <= |uuids| && forall i | 0 <= i < |uuids| :: |uuids[i]| == 32 && IsHex(uuids[i])
  }

  /**
    The errors recorded for the failures `fs`, the i-th with the i-th fresh UUID: no snapshot,
    retry count 0, and the failure's platform and details.
   */
  function Reports(restaurantId: string, fs: seq<SyncResult>, fallback: string, uuids: seq<string>, now: DateTime)
    : (es: seq<SyncError>)
    requires UuidsAvailable(uuids, |fs|)
    ensures |es| == |fs|
  {
    if fs == [] then []
    else
      var n := |fs| - 1;
      Reports(restaurantId, fs[..n], fallback, uuids, now)
      + [RecordedError(restaurantId, fs[n].platform, Details(fs[n], fallback), None, None, uuids[n], now)]
  }

  /** The i-th recorded error is the one recorded for the i-th failure with the i-th UUID. */
  lemma {:induction false} ReportsAt(restaurantId: string, fs: seq<SyncResult>, fallback: string,
                                     uuids: seq<string>, now: DateTime, i: nat)
    requires UuidsAvailable(uuids, |fs|) && i < |fs|
    ensures Reports(restaurantId, fs, fallback, uuids, now)[i]
            == RecordedError(restaurantId, fs[i].platform, Details(fs[i], fallback), None, None, uuids[i], now)
    decreases |fs|
  {
    var n := |fs| - 1;
    if i < n {
      ReportsAt(restaurantId, fs[..n], fallback, uuids, now, i);
      assert fs[..n][i] == fs[i];
    }
  }

  /**
    The i-th recorded error belongs to the i-th failure: its platform and details, the i-th
    fresh id, the clock reading, no snapshot and retry count 0.
   */
  lemma ReportsDescribeFailures(restaurantId: string, fs: seq<SyncResult>, fallback: string,
                                uuids: seq<string>, now: DateTime)
    requires UuidsAvailable(uuids, |fs|)
    ensures var es := Reports(restaurantId, fs, fallback, uuids, now);
      forall i | 0 <= i < |fs| ::
        && es[i].restaurantId == restaurantId && es[i].platform == fs[i].platform
        && es[i].errorDetails == Details(fs[i], fallback)
        && es[i].retryCount == 0 && es[i].menuSnapshot.None?
        && es[i].errorId == NewErrorId(uuids[i]) && es[i].createdAt == now
  {
    forall i | 0 <= i < |fs| {
      ReportsAt(restaurantId, fs, fallback, uuids, now, i);
    }
  }

  /** Only errors from `written` were added or replaced; nothing was removed. */
  predicate ChangedOnlyBy(before: map<ErrorKey, SyncError>, after: map<ErrorKey, SyncError>, written: seq<SyncError>) {
    && (forall k | k in before :: k in after)
    && (forall k | k in after && (k !in before || after[k] != before[k]) :: after[k] in written)
  }

  lemma FailuresStep(results: seq<SyncResult>, i: nat)
    requires i < |results|
    ensures Failures(results[..i + 1]) == Failures(results[..i]) + (if results[i].success then [] else [results[i]])
  {
    assert results[..i + 1][..i] == results[..i];
  }

  lemma ReportsStep(restaurantId: string, fs: seq<SyncResult>, f: SyncResult, fallback: string,
                    uuids: seq<string>, now: DateTime)
    requires UuidsAvailable(uuids, |fs| + 1)
    ensures Reports(restaurantId, fs + [f], fallback, uuids, now)
            == Reports(restaurantId, fs, fallback, uuids, now)
               + [RecordedError(restaurantId, f.platform, Details(f, fallback), None, None, uuids[|fs|], now)]
  {
    assert (fs + [f])[..|fs|] == fs;
  }

  /** A further save of `e`, or no save, keeps the table within what was written. */
  lemma ChangedOnlyByExtend(before: map<ErrorKey, SyncError>, mid: map<ErrorKey, SyncError>,
                            after: map<ErrorKey, SyncError>, written: seq<SyncError>, e: SyncError)
    requires ChangedOnlyBy(before, mid, written)
    requires after == mid[ErrorKeyOf(e) := e] || after == mid
    ensures ChangedOnlyBy(before, after, written + [e])
  {
  }

  /** The errors recorded after the first `i + 1` results, from those after the first `i`. */
  lemma ReportsPrefixStep(restaurantId: string, results: seq<SyncResult>, i: nat, fallback: string,
                          uuids: seq<string>, now: DateTime)
    requires i < |results| && UuidsAvailable(uuids, |results|)
    ensures Reports(restaurantId, Failures(results[..i + 1]), fallback, uuids, now)
            == Reports(restaurantId, Failures(results[..i]), fallback, uuids, now)
               + (if results[i].success then []
                  else [RecordedError(restaurantId, results[i].platform, Details(results[i], fallback), None, None,
                                      uuids[|Failures(results[..i])|], now)])
  {
    FailuresStep(results, i);
    if results[i].success {
      assert Failures(results[..i + 1]) == Failures(results[..i]);
    } else {
      ReportsStep(restaurantId, Failures(results[..i]), results[i], fallback, uuids, now);
    }
  }

  /** One turn of the recording loop on the table: a failure's save lands or not, a success saves nothing. */
  lemma RowsStep(restaurantId: string, results: seq<SyncResult>, i: nat, fallback: string, uuids: seq<string>,
                 now: DateTime, before: map<ErrorKey, SyncError>, mid: map<ErrorKey, SyncError>,
                 after: map<ErrorKey, SyncError>)
    requires i < |results| && UuidsAvailable(uuids, |results|)
    requires ChangedOnlyBy(before, mid, Reports(restaurantId, Failures(results[..i]), fallback, uuids, now))
    requires results[i].success ==> after == mid
    requires !results[i].success ==>
      var e := RecordedError(restaurantId, results[i].platform, Details(results[i], fallback), None, None,
                             uuids[|Failures(results[..i])|], now);
      after == mid[ErrorKeyOf(e) := e] || after == mid
    ensures ChangedOnlyBy(before, after, Reports(restaurantId, Failures(results[..i + 1]), fallback, uuids, now))
  {
    ReportsPrefixStep(restaurantId, results, i, fallback, uuids, now);
    var written := Reports(restaurantId, Failures(results[..i]), fallback, uuids, now);
    if results[i].success {
      assert written + [] == written;
    } else {
      var e := RecordedError(restaurantId, results[i].platform, Details(results[i], fallback), None, None,
                             uuids[|Failures(results[..i])|], now);
      ChangedOnlyByExtend(before, mid, after, written, e);
    }
  }

  /** Appending to the log appends to what was written since `start`. */
  lemma AppendStep(start: seq<SyncError>, written: seq<SyncError>, extra: seq<SyncError>,
                   log: seq<SyncError>, log': seq<SyncError>)
    requires log == start + written && log' == log + extra
    ensures log' == start + (written + extra)
  {
  }

  /** One turn of the recording loop on the log of saved errors. */
  lemma LogStep(restaurantId: string, results: seq<SyncResult>, i: nat, fallback: string, uuids: seq<string>,
                now: DateTime, start: seq<SyncError>, log: seq<SyncError>, log': seq<SyncError>)
    requires i < |results| && UuidsAvailable(uuids, |results|)
    requires log == start + Reports(restaurantId, Failures(results[..i]), fallback, uuids, now)
    requires results[i].success ==> log' == log
    requires !results[i].success ==>
      log' == log + [RecordedError(restaurantId, results[i].platform, Details(results[i], fallback), None, None,
                                   uuids[|Failures(results[..i])|], now)]
    ensures log' == start + Reports(restaurantId, Failures(results[..i + 1]), fallback, uuids, now)
  {
    ReportsPrefixStep(restaurantId, results, i, fallback, uuids, now);
    var written := Reports(restaurantId, Failures(results[..i]), fallback, uuids, now);
    var extra := if results[i].success then []
                 else [RecordedError(restaurantId, results[i].platform, Details(results[i], fallback), None, None,
                                     uuids[|Failures(results[..i])|], now)];
    AppendStep(start, written, extra, log, log');
  }

  /**
    Where the recording loop stands after the first `i` results: the log holds `start` and the
    errors recorded for the failures so far, and the table changed only by those.
   */
  ghost predicate RecordedSoFar(recorder: ErrorService, restaurantId: string, results: seq<SyncResult>, i: nat,
                                fallback: string, uuids: seq<string>, now: DateTime,
                                start: seq<SyncError>, before: map<ErrorKey, SyncError>)
    reads recorder, recorder.errors
    requires i <= |results| && UuidsAvailable(uuids, |results|)
  {
    var written := Reports(restaurantId, Failures(results[..i]), fallback, uuids, now);
    && recorder.errors.Valid()
    && recorder.recorded == start + written
    && ChangedOnlyBy(before, recorder.errors.rows, written)
  }

  /** One turn of the recording loop: the i-th result is recorded when it failed. */
  method RecordOne(recorder: ErrorService, restaurantId: string, results: seq<SyncResult>, i: nat, count: nat,
                   fallback: string, uuids: seq<string>, now: DateTime,
                   ghost start: seq<SyncError>, ghost before: map<ErrorKey, SyncError>)
    returns (count': nat)
    requires i < |results| && UuidsAvailable(uuids, |results|)
    requires count == |Failures(results[..i])|
    requires RecordedSoFar(recorder, restaurantId, results, i, fallback, uuids, now, start, before)
    modifies recorder, recorder.errors
    ensures count' == |Failures(results[..i + 1])|
    ensures RecordedSoFar(recorder, restaurantId, results, i + 1, fallback, uuids, now, start, before)
  {
    FailuresStep(results, i);
    ghost var mid, log := recorder.errors.rows, recorder.recorded;
    count' := count;
    if !results[i].success {
      var _ := recorder.RecordSyncError(restaurantId, results[i].platform, Details(results[i], fallback),
                                        None, None, uuids[count], now);
      count' := count + 1;
    }
    LogStep(restaurantId, results, i, fallback, uuids, now, start, log, recorder.recorded);
    RowsStep(restaurantId, results, i, fallback, uuids, now, before, mid, recorder.errors.rows);
  }

  /**
    The recording loop: one `record_sync_error` per failed result, in order, and no other change
    to the error table than the rows those calls saved.
   */
  method RecordFailures(recorder: ErrorService, restaurantId: string, results: seq<SyncResult>, fallback: string,
                        uuids: seq<string>, now: DateTime)
    requires recorder.errors.Valid()
    requires UuidsAvailable(uuids, |results|)
    modifies recorder, recorder.errors
    ensures recorder.errors.Valid()
    ensures recorder.recorded == old(recorder.recorded) + Reports(restaurantId, Failures(results), fallback, uuids, now)
    ensures ChangedOnlyBy(old(recorder.errors.rows), recorder.errors.rows, Reports(restaurantId, Failures(results), fallback, uuids, now))
  {
    ghost var start, before := recorder.recorded, recorder.errors.rows;
    assert results[..0] == [];
    var count := 0;
    for i := 0 to |results|
      invariant count == |Failures(results[..i])|
      invariant RecordedSoFar(recorder, restaurantId, results, i, fallback, uuids, now, start, before)
    {
      count := RecordOne(recorder, restaurantId, results, i, count, fallback, uuids, now, start, before);
    }
    assert results[..|results|] == results;
  }
}
