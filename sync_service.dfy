/**
  The sync orchestrator. One pass for one platform fetches the restaurant's menu, formats it
  with the platform's adapter, publishes it (once more after a delay if the first attempt
  fails and retry is on), and writes exactly one status row for (restaurant, platform).
 */
module SyncServices {
  import opened Wrappers
  import opened Values
  import opened MenuModels
  import opened SyncModels
  import opened SyncRepositories
  import opened Adapters

  /** The outcome of syncing one platform. */
  datatype SyncResult = SyncResult(success: bool, platform: string, itemCount: nat, errorMessage: Option<string>)

  /** What the menu service returns for a restaurant: its items and its categories. */
  datatype MenuData = MenuData(items: seq<MenuItem>, categories: seq<Category>)

  /**
    Everything outside the service that one pass observes: the menu service's answer (None when
    either fetch failed), the platform's answers to the first and to the second publish attempt,
    and the clock reading taken when the status is written.
   */
  datatype PassWorld = PassWorld(menu: Option<MenuData>, first: Exchange, second: Exchange, now: DateTime)

  /** An observable step of a pass. */
  datatype Step =
    | FetchMenu(restaurantId: string)
    | FormatMenu(platform: string)
    | PublishMenu(platform: string, restaurantId: string, menu: Dict)
    | Sleep(seconds: int)
    | SaveStatus(status: SyncStatus)

  /** What one pass does: its result, its steps in order, and the status row it writes. */
  datatype PassOutcome = PassOutcome(result: SyncResult, steps: seq<Step>, saved: SyncStatus)

  function FetchFailedMessage(restaurantId: string): string {
    "Failed to fetch menu data for restaurant " + restaurantId
  }

  function FormatFailedMessage(platform: string): string {
    "Failed to format menu for platform " + platform
  }

  function PublishFailedMessage(platform: string): string {
    "Failed to publish menu to " + platform + " after all retry attempts"
  }

  /** `_save_success_status` / `_save_failed_status`: the row written at the end of a pass. */
  function PassStatus(restaurantId: string, platform: string, completed: bool, itemCount: nat, now: DateTime): (s: SyncStatus)
    ensures StatusKeyOf(s) == StatusKey(restaurantId, platform)
    ensures s.status == (if completed then Completed else Failed)
    ensures s.itemCount == Some(itemCount) && s.lastSyncTime == Some(now) && s.externalMenuId.None?
  {
    SyncStatus(restaurantId, platform, if completed then Completed else Failed, Some(now), Some(itemCount), None)
  }

  function PublishCount(steps: seq<Step>): nat {
    if steps == [] then 0 else (if steps[0].PublishMenu? then 1 else 0) + PublishCount(steps[1..])
  }

  function SaveCount(steps: seq<Step>): nat {
    if steps == [] then 0 else (if steps[0].SaveStatus? then 1 else 0) + SaveCount(steps[1..])
  }

  function FormatCount(steps: seq<Step>): nat {
    if steps == [] then 0 else (if steps[0].FormatMenu? then 1 else 0) + FormatCount(steps[1..])
  }

  lemma {:induction false} CountsAppend(a: seq<Step>, b: seq<Step>)
    ensures PublishCount(a + b) == PublishCount(a) + PublishCount(b)
    ensures SaveCount(a + b) == SaveCount(a) + SaveCount(b)
    ensures FormatCount(a + b) == FormatCount(a) + FormatCount(b)
    decreases |a|
  {
    if a == [] {
      assert a + b == b;
    } else {
      assert (a + b)[0] == a[0];
      assert (a + b)[1..] == a[1..] + b;
      CountsAppend(a[1..], b);
    }
  }

  lemma CountsSingle(s: Step)
    ensures PublishCount([s]) == (if s.PublishMenu? then 1 else 0)
    ensures SaveCount([s]) == (if s.SaveStatus? then 1 else 0)
    ensures FormatCount([s]) == (if s.FormatMenu? then 1 else 0)
  {
    assert [s][1..] == [];
  }

  /**
    `sync_to_platform` as a function of its inputs and of the world it observes. Whatever the
    branch, the result names the requested platform, and the last step is the one status write,
    keyed by (restaurant, platform), whose state and count agree with the result.
   */
  function Pass(restaurantId: string, platform: string, adapter: PlatformAdapter, retry: bool,
                retryDelaySeconds: int, w: PassWorld): (o: PassOutcome)
    ensures o.result.platform == platform
    ensures |o.steps| >= 2 && o.steps[0] == FetchMenu(restaurantId) && o.steps[|o.steps| - 1] == SaveStatus(o.saved)
    ensures forall i | 0 <= i < |o.steps| - 1 :: !o.steps[i].SaveStatus?
    ensures o.saved == PassStatus(restaurantId, platform, o.result.success, o.result.itemCount, w.now)
    ensures o.result.success <==> o.result.errorMessage.None?
  {
    var fetch := FetchMenu(restaurantId);
    match w.menu
    case None =>
      var saved := PassStatus(restaurantId, platform, false, 0, w.now);
      PassOutcome(SyncResult(false, platform, 0, Some(FetchFailedMessage(restaurantId))), [fetch, SaveStatus(saved)], saved)
    case Some(data) =>
      var count := |data.items|;
      match adapter.formatMenu(data.items, data.categories)
      case None =>
        var saved := PassStatus(restaurantId, platform, false, count, w.now);
        PassOutcome(SyncResult(false, platform, count, Some(FormatFailedMessage(platform))),
                    [fetch, FormatMenu(platform), SaveStatus(saved)], saved)
      case Some(menu) =>
        var publish := PublishMenu(platform, restaurantId, menu);
        var firstOk := adapter.publishMenu(restaurantId, menu, w.first).accepted;
        var retried := !firstOk && retry;
        var ok := if retried then adapter.publishMenu(restaurantId, menu, w.second).accepted else firstOk;
        var attempts := if retried then [publish, Sleep(retryDelaySeconds), publish] else [publish];
        var saved := PassStatus(restaurantId, platform, ok, count, w.now);
        var result := if ok then SyncResult(true, platform, count, None)
                      else SyncResult(false, platform, count, Some(PublishFailedMessage(platform)));
        PassOutcome(result, [fetch, FormatMenu(platform)] + attempts + [SaveStatus(saved)], saved)
  }

  /** Every pass writes exactly one status row. */
  lemma PassSavesOnce(restaurantId: string, platform: string, adapter: PlatformAdapter, retry: bool,
                      retryDelaySeconds: int, w: PassWorld)
    ensures SaveCount(Pass(restaurantId, platform, adapter, retry, retryDelaySeconds, w).steps) == 1
  {
    var o := Pass(restaurantId, platform, adapter, retry, retryDelaySeconds, w);
    var n := |o.steps|;
    var middle := o.steps[..n - 1];
    assert middle + [o.steps[n - 1]] == o.steps;
    CountsAppend(middle, [o.steps[n - 1]]);
    CountsSingle(o.steps[n - 1]);
    NoSaves(middle);
  }

  lemma {:induction false} NoSaves(steps: seq<Step>)
    requires forall i | 0 <= i < |steps| :: !steps[i].SaveStatus?
    ensures SaveCount(steps) == 0
    decreases |steps|
  {
    if steps != [] {
      NoSaves(steps[1..]);
    }
  }

  /** No menu: a failed result with no items, a FAILED row with count 0, and no adapter call. */
  lemma PassFetchFailure(restaurantId: string, platform: string, adapter: PlatformAdapter, retry: bool,
                         retryDelaySeconds: int, w: PassWorld)
    requires w.menu.None?
    ensures var o := Pass(restaurantId, platform, adapter, retry, retryDelaySeconds, w);
      && o.result == SyncResult(false, platform, 0, Some(FetchFailedMessage(restaurantId)))
      && o.saved.status == Failed && o.saved.itemCount == Some(0)
      && FormatCount(o.steps) == 0 && PublishCount(o.steps) == 0
  {
    var o := Pass(restaurantId, platform, adapter, retry, retryDelaySeconds, w);
    assert o.steps == [o.steps[0]] + [o.steps[1]];
    CountsAppend([o.steps[0]], [o.steps[1]]);
    CountsSingle(o.steps[0]);
    CountsSingle(o.steps[1]);
  }

  /** The adapter cannot format: a failed result and FAILED row counting the source items, and no publish. */
  lemma PassFormatFailure(restaurantId: string, platform: string, adapter: PlatformAdapter, retry: bool,
                          retryDelaySeconds: int, w: PassWorld)
    requires w.menu.Some? && adapter.formatMenu(w.menu.value.items, w.menu.value.categories).None?
    ensures var o := Pass(restaurantId, platform, adapter, retry, retryDelaySeconds, w);
      && o.result == SyncResult(false, platform, |w.menu.value.items|, Some(FormatFailedMessage(platform)))
      && o.saved.status == Failed && o.saved.itemCount == Some(|w.menu.value.items|)
      && FormatCount(o.steps) == 1 && PublishCount(o.steps) == 0
  {
    var o := Pass(restaurantId, platform, adapter, retry, retryDelaySeconds, w);
    assert o.steps == [o.steps[0]] + ([o.steps[1]] + [o.steps[2]]);
    CountsAppend([o.steps[0]], [o.steps[1]] + [o.steps[2]]);
    CountsAppend([o.steps[1]], [o.steps[2]]);
    CountsSingle(o.steps[0]);
    CountsSingle(o.steps[1]);
    CountsSingle(o.steps[2]);
  }

  /**
    Once formatted, the menu is published once without retry or after a first success, twice
    after a first failure with retry, and never three times; the delay sits between the two.
   */
  lemma PassPublishAttempts(restaurantId: string, platform: string, adapter: PlatformAdapter, retry: bool,
                            retryDelaySeconds: int, w: PassWorld)
    requires w.menu.Some?
    requires var menu := adapter.formatMenu(w.menu.value.items, w.menu.value.categories); menu.Some?
    ensures var menu := adapter.formatMenu(w.menu.value.items, w.menu.value.categories).value;
      var o := Pass(restaurantId, platform, adapter, retry, retryDelaySeconds, w);
      var firstOk := adapter.publishMenu(restaurantId, menu, w.first).accepted;
      && PublishCount(o.steps) == (if retry && !firstOk then 2 else 1)
      && (retry && !firstOk ==> o.steps[3] == Sleep(retryDelaySeconds))
  {
    var menu := adapter.formatMenu(w.menu.value.items, w.menu.value.categories).value;
    var o := Pass(restaurantId, platform, adapter, retry, retryDelaySeconds, w);
    var publish := PublishMenu(platform, restaurantId, menu);
    var firstOk := adapter.publishMenu(restaurantId, menu, w.first).accepted;
    var attempts := if retry && !firstOk then [publish, Sleep(retryDelaySeconds), publish] else [publish];
    var head := [FetchMenu(restaurantId), FormatMenu(platform)];
    assert o.steps == head + attempts + [SaveStatus(o.saved)];
    CountsAppend(head + attempts, [SaveStatus(o.saved)]);
    CountsAppend(head, attempts);
    assert head == [head[0]] + [head[1]];
    CountsAppend([head[0]], [head[1]]);
    CountsSingle(head[0]);
    CountsSingle(head[1]);
    CountsSingle(SaveStatus(o.saved));
    CountsSingle(publish);
    if retry && !firstOk {
      assert attempts == [publish] + ([Sleep(retryDelaySeconds)] + [publish]);
      CountsAppend([publish], [Sleep(retryDelaySeconds)] + [publish]);
      CountsAppend([Sleep(retryDelaySeconds)], [publish]);
      CountsSingle(Sleep(retryDelaySeconds));
    }
  }

  /**
    Once formatted, the pass succeeds iff the first attempt, or with retry the second, is
    accepted. Success is a COMPLETED row counting the source items (not the formatted ones) and
    no message; failure is a FAILED row and the after-all-attempts message.
   */
  lemma PassPublishOutcome(restaurantId: string, platform: string, adapter: PlatformAdapter, retry: bool,
                           retryDelaySeconds: int, w: PassWorld)
    requires w.menu.Some?
    requires var menu := adapter.formatMenu(w.menu.value.items, w.menu.value.categories); menu.Some?
    ensures var menu := adapter.formatMenu(w.menu.value.items, w.menu.value.categories).value;
      var o := Pass(restaurantId, platform, adapter, retry, retryDelaySeconds, w);
      var ok := adapter.publishMenu(restaurantId, menu, w.first).accepted
                || (retry && adapter.publishMenu(restaurantId, menu, w.second).accepted);
      && (o.result.success <==> ok)
      && o.result.itemCount == |w.menu.value.items|
      && (ok ==> o.result.errorMessage.None? && o.saved.status == Completed)
      && (!ok ==> o.result.errorMessage == Some(PublishFailedMessage(platform)) && o.saved.status == Failed)
  {
  }

  /** The members of `keys` in some order, each once: the iteration order of a dict. */
  method Enumerate<K>(keys: set<K>) returns (s: seq<K>)
    ensures |s| == |keys|
    ensures forall i | 0 <= i < |s| :: s[i] in keys
    ensures forall i, j | 0 <= i < j < |s| :: s[i] != s[j]
    ensures forall k | k in keys :: k in s
  {
    var pending := keys;
    s := [];
    while pending != {}
      invariant pending <= keys
      invariant |pending| + |s| == |keys|
      invariant forall i | 0 <= i < |s| :: s[i] in keys && s[i] !in pending
      invariant forall k | k in keys && k !in pending :: k in s
      invariant forall i, j | 0 <= i < j < |s| :: s[i] != s[j]
      decreases pending
    {
      var k :| k in pending;
      s := s + [k];
      pending := pending - {k};
    }
  }

  /**
    `outcome` holds, for every configured platform, the pass planned for it. Looking a platform
    up in `outcome` does not unfold the pass; only a `Pass` term written out does.
   */
  ghost predicate Planned(outcome: map<string, PassOutcome>, restaurantId: string,
                          adapters: map<string, PlatformAdapter>, retry: bool, retryDelaySeconds: int,
                          world: string -> PassWorld) {
    && outcome.Keys == adapters.Keys
    && forall p {:trigger Pass(restaurantId, p, adapters[p], retry, retryDelaySeconds, world(p))} | p in adapters ::
         outcome[p] == Pass(restaurantId, p, adapters[p], retry, retryDelaySeconds, world(p))
  }

  class SyncService {
    const statuses: StatusRepository
    const retryDelaySeconds: int
    /** The steps taken so far, in order. */
    ghost var log: seq<Step>

    constructor (statuses: StatusRepository, retryDelaySeconds: int := 2)
      ensures this.statuses == statuses && this.retryDelaySeconds == retryDelaySeconds && log == []
    {
      this.statuses := statuses;
      this.retryDelaySeconds := retryDelaySeconds;
      log := [];
    }

    /** Write the end-of-pass row; a failed write changes nothing and is not reported. */
    method SaveResultStatus(restaurantId: string, platform: string, completed: bool, itemCount: nat, now: DateTime)
      requires statuses.Valid()
      modifies this, statuses
      ensures statuses.Valid()
      ensures var s := PassStatus(restaurantId, platform, completed, itemCount, now);
        log == old(log) + [SaveStatus(s)]
        && (statuses.rows == old(statuses.rows)[StatusKeyOf(s) := s] || statuses.rows == old(statuses.rows))
    {
      var s := PassStatus(restaurantId, platform, completed, itemCount, now);
      log := log + [SaveStatus(s)];
      var _ := statuses.SaveStatus(s);
    }

    /**
      `sync_to_platform`: the result and steps are those of `Pass`, and the status table gains
      the pass's row (or, if the write fails, stays as it was), whatever the write reports.
     */
    method SyncToPlatform(restaurantId: string, platform: string, adapter: PlatformAdapter, w: PassWorld,
                          retry: bool := true) returns (r: SyncResult)
      requires statuses.Valid()
      modifies this, statuses
      ensures statuses.Valid()
      ensures var o := Pass(restaurantId, platform, adapter, retry, retryDelaySeconds, w);
        && r == o.result
        && log == old(log) + o.steps
        && (statuses.rows == old(statuses.rows)[StatusKeyOf(o.saved) := o.saved]
            || statuses.rows == old(statuses.rows))
    {
      ghost var o := Pass(restaurantId, platform, adapter, retry, retryDelaySeconds, w);
      ghost var before := log;
      if w.menu.None? {
        log := log + [FetchMenu(restaurantId)];
        SaveResultStatus(restaurantId, platform, false, 0, w.now);
        assert log == before + o.steps;
        return SyncResult(false, platform, 0, Some(FetchFailedMessage(restaurantId)));
      }
      var items, categories := w.menu.value.items, w.menu.value.categories;

      var formatted := adapter.formatMenu(items, categories);
      if formatted.None? {
        log := log + [FetchMenu(restaurantId), FormatMenu(platform)];
        SaveResultStatus(restaurantId, platform, false, |items|, w.now);
        assert log == before + o.steps;
        return SyncResult(false, platform, |items|, Some(FormatFailedMessage(platform)));
      }
      var menu := formatted.value;

      ghost var attempts := [PublishMenu(platform, restaurantId, menu)];
      var published := adapter.publishMenu(restaurantId, menu, w.first).accepted;
      if !published && retry {
        attempts := attempts + [Sleep(retryDelaySeconds), PublishMenu(platform, restaurantId, menu)];
        published := adapter.publishMenu(restaurantId, menu, w.second).accepted;
      }
      log := log + [FetchMenu(restaurantId), FormatMenu(platform)] + attempts;

      SaveResultStatus(restaurantId, platform, published, |items|, w.now);
      assert log == before + o.steps;
      if published {
        r := SyncResult(true, platform, |items|, None);
      } else {
        r := SyncResult(false, platform, |items|, Some(PublishFailedMessage(platform)));
      }
    }

    /** The pass for `platform`, whose outcome was planned in `outcome`; states its effect over `outcome` only. */
    method SyncOne(restaurantId: string, platform: string, adapters: map<string, PlatformAdapter>,
                   world: string -> PassWorld, retry: bool, ghost outcome: map<string, PassOutcome>)
      returns (r: SyncResult)
      requires statuses.Valid()
      requires platform in adapters && Planned(outcome, restaurantId, adapters, retry, retryDelaySeconds, world)
      modifies this, statuses
      ensures statuses.Valid()
      ensures r == outcome[platform].result && log == old(log) + outcome[platform].steps
      ensures StatusKeyOf(outcome[platform].saved) == StatusKey(restaurantId, platform)
      ensures statuses.rows == old(statuses.rows)[StatusKeyOf(outcome[platform].saved) := outcome[platform].saved]
              || statuses.rows == old(statuses.rows)
    {
      r := SyncToPlatform(restaurantId, platform, adapters[platform], world(platform), retry);
    }

    /**
      `sync_to_multiple_platforms`: one independent pass per configured platform. `order` is
      the order the platforms were visited in; each result is the pass for its own platform
      over that platform's world, each platform's row is its pass's row (or the old row if the
      write failed), and no other row changes.
     */
    method SyncToMultiplePlatforms(restaurantId: string, adapters: map<string, PlatformAdapter>,
                                   world: string -> PassWorld, retry: bool := true)
      returns (results: seq<SyncResult>, ghost order: seq<string>, ghost outcome: map<string, PassOutcome>)
      requires statuses.Valid()
      modifies this, statuses
      ensures statuses.Valid()
      ensures Planned(outcome, restaurantId, adapters, retry, retryDelaySeconds, world)
      ensures |results| == |order| == |adapters|
      ensures forall i | 0 <= i < |order| :: order[i] in adapters
      ensures forall i, j | 0 <= i < j < |order| :: order[i] != order[j]
      ensures forall p | p in adapters :: p in order
      ensures forall i | 0 <= i < |results| :: results[i] == outcome[order[i]].result
      ensures forall p | p in adapters ::
        PassRow(statuses.rows, old(statuses.rows), StatusKey(restaurantId, p), outcome[p].saved)
      ensures forall k: StatusKey | k.restaurantId != restaurantId || k.platform !in adapters ::
        SameRow(statuses.rows, old(statuses.rows), k)
    {
      outcome := map p | p in adapters :: Pass(restaurantId, p, adapters[p], retry, retryDelaySeconds, world(p));
      var platforms := Enumerate(adapters.Keys);
      order := platforms;
      results := SyncEach(restaurantId, adapters, world, retry, platforms, outcome);
    }

    /** The loop of `SyncToMultiplePlatforms`: the passes in `order`, stated over their planned outcomes. */
    method SyncEach(restaurantId: string, adapters: map<string, PlatformAdapter>, world: string -> PassWorld,
                    retry: bool, order: seq<string>, ghost outcome: map<string, PassOutcome>)
      returns (results: seq<SyncResult>)
      requires statuses.Valid()
      requires Planned(outcome, restaurantId, adapters, retry, retryDelaySeconds, world)
      requires forall i | 0 <= i < |order| :: order[i] in adapters
      requires forall i, j | 0 <= i < j < |order| :: order[i] != order[j]
      modifies this, statuses
      ensures statuses.Valid()
      ensures |results| == |order|
      ensures forall i | 0 <= i < |results| :: results[i] == outcome[order[i]].result
      ensures forall i | 0 <= i < |order| ::
        PassRow(statuses.rows, old(statuses.rows), StatusKey(restaurantId, order[i]), outcome[order[i]].saved)
      ensures forall k: StatusKey | k.restaurantId != restaurantId || k.platform !in adapters ::
        SameRow(statuses.rows, old(statuses.rows), k)
    {
      results := [];
      ghost var done: set<string> := {};
      for n := 0 to |order|
        invariant statuses.Valid()
        invariant |results| == n
        invariant done <= adapters.Keys
        invariant forall i | n <= i < |order| :: order[i] !in done
        invariant forall i | 0 <= i < n :: results[i] == outcome[order[i]].result
        invariant forall i | 0 <= i < n ::
          PassRow(statuses.rows, old(statuses.rows), StatusKey(restaurantId, order[i]), outcome[order[i]].saved)
        invariant forall k: StatusKey | k.restaurantId != restaurantId || k.platform !in done ::
          SameRow(statuses.rows, old(statuses.rows), k)
      {
        var result := SyncOne(restaurantId, order[n], adapters, world, retry, outcome);
        results := results + [result];
        done := done + {order[n]};
      }
    }

    /** `get_sync_status`: the stored row for the pair, or None. */
    method GetSyncStatus(restaurantId: string, platform: string) returns (r: Option<SyncStatus>)
      requires statuses.Valid()
      ensures StatusKey(restaurantId, platform) !in statuses.rows ==> r.None?
      ensures r.Some? ==> StatusKey(restaurantId, platform) in statuses.rows
                          && r.value == statuses.rows[StatusKey(restaurantId, platform)]
    {
      r := statuses.GetStatus(restaurantId, platform);
    }

    /**
      `get_all_statuses_for_restaurant`: the repository's page of the restaurant's rows, a
      prefix of all of them (`matched`), one per platform.
     */
    method GetAllStatusesForRestaurant(restaurantId: string) returns (r: seq<SyncStatus>, ghost matched: seq<SyncStatus>)
      requires statuses.Valid()
      ensures statuses.AllRowsOf(restaurantId, matched) && r <= matched
      ensures forall i | 0 <= i < |r| :: r[i].restaurantId == restaurantId && StatusKeyOf(r[i]) in statuses.rows
      ensures forall i | 0 <= i < |r| :: statuses.rows[StatusKeyOf(r[i])] == r[i]
      ensures forall i, j | 0 <= i < j < |r| :: r[i].platform != r[j].platform
    {
      r, matched := statuses.ListStatusesForRestaurant(restaurantId);
    }
  }

  /** Key `k` has the same row, or the same absence of one, in both tables. */
  predicate SameRow(now: map<StatusKey, SyncStatus>, before: map<StatusKey, SyncStatus>, k: StatusKey) {
    (k in now <==> k in before) && (k in now ==> now[k] == before[k])
  }

  /** Key `k` holds the row a pass wrote, or, when that write failed, what it held before. */
  predicate PassRow(now: map<StatusKey, SyncStatus>, before: map<StatusKey, SyncStatus>, k: StatusKey, saved: SyncStatus) {
    (k in now && now[k] == saved) || SameRow(now, before, k)
  }
}
