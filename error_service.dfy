/**
  The error queue: recording a failed sync (with an optional JSON snapshot of the menu it tried
  to send), reading errors back, and counting manual retries.
 */
module ErrorServices {
  import opened Wrappers
  import opened Values
  import opened Decimals
  import opened Text
  import opened MenuModels
  import opened SyncModels
  import opened SyncRepositories

  // Identifiers

  /** `f"err_{uuid.uuid4().hex[:12]}"`, given the 32 hex digits of the UUID. */
  function NewErrorId(uuidHex: string): (id: string)
    requires |uuidHex| == 32 && IsHex(uuidHex)
    ensures |id| == 16 && id[..4] == "err_" && IsHex(id[4..])
    ensures id[4..] == uuidHex[..12]
  {
    "err_" + uuidHex[..12]
  }

  /** Ids made from UUIDs that differ in their first twelve digits differ. */
  lemma NewErrorIdInjective(a: string, b: string)
    requires |a| == 32 && IsHex(a) && |b| == 32 && IsHex(b)
    ensures NewErrorId(a) == NewErrorId(b) <==> a[..12] == b[..12]
  {
    if NewErrorId(a) == NewErrorId(b) {
      assert a[..12] == NewErrorId(a)[4..] == NewErrorId(b)[4..] == b[..12];
    }
  }

  // Menu snapshot

  /** A JSON text field for an optional string: None becomes null. */
  function OptionalJson(s: Option<string>): (v: Json)
    ensures s.None? <==> v == JNull
    ensures s.Some? ==> v == JStr(s.value)
  {
    if s.Some? then JStr(s.value) else JNull
  }

  function OptionalFromJson(v: Json): (r: Option<Option<string>>) {
    match v
    case JNull => Some(None)
    case JStr(s) => Some(Some(s))
    case _ => None
  }

  /** `_serialize_menu_item`: every field under its own name, the price as the text of the decimal. */
  function SerializeMenuItem(item: MenuItem): (d: Dict)
    ensures d.Keys == {"id", "restaurant_id", "name", "description", "price", "category_id", "available", "image_url"}
    ensures d["id"] == JStr(item.id) && d["restaurant_id"] == JStr(item.restaurantId) && d["name"] == JStr(item.name)
    ensures d["description"] == OptionalJson(item.description) && d["price"] == JStr(ToString(item.price))
    ensures d["category_id"] == JStr(item.categoryId) && d["available"] == JBool(item.available)
    ensures d["image_url"] == OptionalJson(item.imageUrl)
  {
    map["id" := JStr(item.id), "restaurant_id" := JStr(item.restaurantId), "name" := JStr(item.name),
        "description" := OptionalJson(item.description), "price" := JStr(ToString(item.price)),
        "category_id" := JStr(item.categoryId), "available" := JBool(item.available),
        "image_url" := OptionalJson(item.imageUrl)]
  }

  /** `_serialize_category`: every field under its own name. */
  function SerializeCategory(c: Category): (d: Dict)
    ensures d.Keys == {"id", "restaurant_id", "name", "description", "sort_order"}
    ensures d["id"] == JStr(c.id) && d["restaurant_id"] == JStr(c.restaurantId) && d["name"] == JStr(c.name)
    ensures d["description"] == OptionalJson(c.description) && d["sort_order"] == JNum(c.sortOrder)
  {
    map["id" := JStr(c.id), "restaurant_id" := JStr(c.restaurantId), "name" := JStr(c.name),
        "description" := OptionalJson(c.description), "sort_order" := JNum(c.sortOrder)]
  }

  function TextField(d: Dict, key: string): Option<string> {
    if key in d && d[key].JStr? then Some(d[key].s) else None
  }

  /** Reading a serialized item back; the inverse of `SerializeMenuItem`. */
  function ItemFromSnapshot(d: Dict): Option<MenuItem> {
    var id :- TextField(d, "id");
    var rid :- TextField(d, "restaurant_id");
    var name :- TextField(d, "name");
    var description :- if "description" in d then OptionalFromJson(d["description"]) else None;
    var priceText :- TextField(d, "price");
    var price :- Parse(priceText);
    var category :- TextField(d, "category_id");
    var available :- if "available" in d && d["available"].JBool? then Some(d["available"].b) else None;
    var image :- if "image_url" in d then OptionalFromJson(d["image_url"]) else None;
    Some(MenuItem(id, rid, name, description, price, category, available, image))
  }

  /** Reading a serialized category back; the inverse of `SerializeCategory`. */
  function CategoryFromSnapshot(d: Dict): Option<Category> {
    var id :- TextField(d, "id");
    var rid :- TextField(d, "restaurant_id");
    var name :- TextField(d, "name");
    var description :- if "description" in d then OptionalFromJson(d["description"]) else None;
    var order :- if "sort_order" in d && d["sort_order"].JNum? then Some(d["sort_order"].n) else None;
    Some(Category(id, rid, name, description, order))
  }

  /** A serialized item reads back as the item, its price included (`Decimal(str(price)) == price`). */
  lemma MenuItemSnapshotRoundTrip(item: MenuItem)
    ensures ItemFromSnapshot(SerializeMenuItem(item)) == Some(item)
  {
    ParseToString(item.price);
  }

  lemma CategorySnapshotRoundTrip(c: Category)
    ensures CategoryFromSnapshot(SerializeCategory(c)) == Some(c)
  {
  }

  function SerializeItems(items: seq<MenuItem>): (js: seq<Json>)
    ensures |js| == |items|
    ensures forall i | 0 <= i < |items| :: js[i] == JObj(SerializeMenuItem(items[i]))
  {
    if items == [] then [] else [JObj(SerializeMenuItem(items[0]))] + SerializeItems(items[1..])
  }

  function SerializeCategories(categories: seq<Category>): (js: seq<Json>)
    ensures |js| == |categories|
    ensures forall i | 0 <= i < |categories| :: js[i] == JObj(SerializeCategory(categories[i]))
  {
    if categories == [] then [] else [JObj(SerializeCategory(categories[0]))] + SerializeCategories(categories[1..])
  }

  /** `_create_menu_snapshot`: `{"items": [...], "categories": [...]}`, one entry per input, in order. */
  function CreateMenuSnapshot(items: seq<MenuItem>, categories: seq<Category>): (d: Dict)
    ensures d.Keys == {"items", "categories"}
    ensures d["items"] == JArr(SerializeItems(items)) && d["categories"] == JArr(SerializeCategories(categories))
  {
    map["items" := JArr(SerializeItems(items)), "categories" := JArr(SerializeCategories(categories))]
  }

  function ItemsFromSnapshot(js: seq<Json>): Option<seq<MenuItem>> {
    if js == [] then Some([])
    else if !js[0].JObj? then None
    else
      var first :- ItemFromSnapshot(js[0].fields);
      var rest :- ItemsFromSnapshot(js[1..]);
      Some([first] + rest)
  }

  function CategoriesFromSnapshot(js: seq<Json>): Option<seq<Category>> {
    if js == [] then Some([])
    else if !js[0].JObj? then None
    else
      var first :- CategoryFromSnapshot(js[0].fields);
      var rest :- CategoriesFromSnapshot(js[1..]);
      Some([first] + rest)
  }

  /** The menu a snapshot holds, or None if it is not one `CreateMenuSnapshot` could have made. */
  function MenuFromSnapshot(d: Dict): Option<(seq<MenuItem>, seq<Category>)> {
    if "items" in d && d["items"].JArr? && "categories" in d && d["categories"].JArr? then
      var items :- ItemsFromSnapshot(d["items"].elems);
      var categories :- CategoriesFromSnapshot(d["categories"].elems);
      Some((items, categories))
    else None
  }

  lemma ItemsFromSnapshotCons(j: Json, rest: seq<Json>, first: MenuItem, others: seq<MenuItem>)
    requires j.JObj? && ItemFromSnapshot(j.fields) == Some(first) && ItemsFromSnapshot(rest) == Some(others)
    ensures ItemsFromSnapshot([j] + rest) == Some([first] + others)
  {
    assert ([j] + rest)[1..] == rest;
  }

  lemma CategoriesFromSnapshotCons(j: Json, rest: seq<Json>, first: Category, others: seq<Category>)
    requires j.JObj? && CategoryFromSnapshot(j.fields) == Some(first) && CategoriesFromSnapshot(rest) == Some(others)
    ensures CategoriesFromSnapshot([j] + rest) == Some([first] + others)
  {
    assert ([j] + rest)[1..] == rest;
  }

  /** Putting one more item in front keeps the item list's round trip. */
  lemma ItemsRoundTripCons(item: MenuItem, rest: seq<MenuItem>)
    requires ItemsFromSnapshot(SerializeItems(rest)) == Some(rest)
    ensures ItemsFromSnapshot(SerializeItems([item] + rest)) == Some([item] + rest)
  {
    var j := JObj(SerializeMenuItem(item));
    assert ([item] + rest)[1..] == rest;
    assert SerializeItems([item] + rest) == [j] + SerializeItems(rest);
    MenuItemSnapshotRoundTrip(item);
    ItemsFromSnapshotCons(j, SerializeItems(rest), item, rest);
  }

  /** Putting one more category in front keeps the category list's round trip. */
  lemma CategoriesRoundTripCons(c: Category, rest: seq<Category>)
    requires CategoriesFromSnapshot(SerializeCategories(rest)) == Some(rest)
    ensures CategoriesFromSnapshot(SerializeCategories([c] + rest)) == Some([c] + rest)
  {
    var j := JObj(SerializeCategory(c));
    assert ([c] + rest)[1..] == rest;
    assert SerializeCategories([c] + rest) == [j] + SerializeCategories(rest);
    CategorySnapshotRoundTrip(c);
    CategoriesFromSnapshotCons(j, SerializeCategories(rest), c, rest);
  }

  lemma {:induction false} ItemsSnapshotRoundTrip(items: seq<MenuItem>)
    ensures ItemsFromSnapshot(SerializeItems(items)) == Some(items)
    decreases |items|
  {
    if items != [] {
      ItemsSnapshotRoundTrip(items[1..]);
      ItemsRoundTripCons(items[0], items[1..]);
      assert [items[0]] + items[1..] == items;
    }
  }

  lemma {:induction false} CategoriesSnapshotRoundTrip(categories: seq<Category>)
    ensures CategoriesFromSnapshot(SerializeCategories(categories)) == Some(categories)
    decreases |categories|
  {
    if categories != [] {
      CategoriesSnapshotRoundTrip(categories[1..]);
      CategoriesRoundTripCons(categories[0], categories[1..]);
      assert [categories[0]] + categories[1..] == categories;
    }
  }

  /** A snapshot keeps the whole menu: reading it back gives the items and categories, in order. */
  lemma MenuSnapshotRoundTrip(items: seq<MenuItem>, categories: seq<Category>)
    ensures MenuFromSnapshot(CreateMenuSnapshot(items, categories)) == Some((items, categories))
  {
    ItemsSnapshotRoundTrip(items);
    CategoriesSnapshotRoundTrip(categories);
  }

  // Recording and reading errors

  /**
    The error `record_sync_error` builds: a fresh id, the clock reading, retry count 0, and a
    snapshot exactly when both the items and the categories were given.
   */
  function RecordedError(restaurantId: string, platform: string, errorDetails: string,
                         items: Option<seq<MenuItem>>, categories: Option<seq<Category>>,
                         uuidHex: string, now: DateTime): (e: SyncError)
    requires |uuidHex| == 32 && IsHex(uuidHex)
    ensures e.errorId == NewErrorId(uuidHex) && e.createdAt == now && e.retryCount == 0
    ensures e.restaurantId == restaurantId && e.platform == platform && e.errorDetails == errorDetails
    ensures e.menuSnapshot.Some? <==> items.Some? && categories.Some?
    ensures e.menuSnapshot.Some? ==> e.menuSnapshot.value == CreateMenuSnapshot(items.value, categories.value)
  {
    var snapshot := if items.Some? && categories.Some? then Some(CreateMenuSnapshot(items.value, categories.value)) else None;
    SyncError(NewErrorId(uuidHex), now, restaurantId, platform, errorDetails, snapshot, 0)
  }

  /** A recorded snapshot gives back the menu that failed to sync. */
  lemma RecordedSnapshotKeepsMenu(restaurantId: string, platform: string, errorDetails: string,
                                  items: seq<MenuItem>, categories: seq<Category>, uuidHex: string, now: DateTime)
    requires |uuidHex| == 32 && IsHex(uuidHex)
    ensures var e := RecordedError(restaurantId, platform, errorDetails, Some(items), Some(categories), uuidHex, now);
      e.menuSnapshot.Some? && MenuFromSnapshot(e.menuSnapshot.value) == Some((items, categories))
  {
    MenuSnapshotRoundTrip(items, categories);
  }

  /** The repository's default page size. */
  const DefaultLimit: nat := 50

  /** The `TypeError` of a call to the repository's `get_error` without `created_at`. */
  const GetErrorArityMessage := "SyncErrorRepository.get_error() missing 1 required positional argument: 'created_at'"

  /** The limit the repository is evidently meant to receive: the caller's, or 50. */
  function ForwardedLimit(limit: Option<int>): (r: int)
    ensures limit.Some? ==> r == limit.value
    ensures limit.None? ==> r == DefaultLimit
  {
    limit.GetOr(DefaultLimit)
  }

  /** `platform and errors`: a filter applies only for a non-empty platform name. */
  function FilterPlatform(errors: seq<SyncError>, platform: Option<string>): (r: seq<SyncError>)
    ensures platform.None? || platform.value == [] ==> r == errors
    ensures |r| <= |errors|
    ensures forall e :: e in r <==> e in errors && (platform.None? || platform.value == [] || e.platform == platform.value)
  {
    if platform.None? || platform.value == [] || errors == [] then errors
    else if errors[0].platform == platform.value then [errors[0]] + FilterPlatform(errors[1..], platform)
    else FilterPlatform(errors[1..], platform)
  }

  /** The filter keeps the listed order: filtering a concatenation concatenates the filtered parts. */
  lemma {:induction false} FilterPlatformAppend(a: seq<SyncError>, b: seq<SyncError>, platform: Option<string>)
    ensures FilterPlatform(a + b, platform) == FilterPlatform(a, platform) + FilterPlatform(b, platform)
  {
    if a == [] {
      assert a + b == b;
    } else if platform.Some? && platform.value != [] {
      assert (a + b)[0] == a[0];
      assert (a + b)[1..] == a[1..] + b;
      FilterPlatformAppend(a[1..], b, platform);
    }
  }

  class ErrorService {
    const errors: ErrorRepository
    /** Every error handed to the repository so far, in order. */
    ghost var recorded: seq<SyncError>

    constructor (errors: ErrorRepository)
      ensures this.errors == errors && recorded == []
    {
      this.errors := errors;
      recorded := [];
    }

    /**
      `record_sync_error`: the new error's id when it was saved, None (and the table unchanged)
      when the save failed.
     */
    method RecordSyncError(restaurantId: string, platform: string, errorDetails: string,
                           items: Option<seq<MenuItem>>, categories: Option<seq<Category>>,
                           uuidHex: string, now: DateTime) returns (r: Option<string>)
      requires errors.Valid()
      requires |uuidHex| == 32 && IsHex(uuidHex)
      modifies this, errors
      ensures errors.Valid()
      ensures recorded == old(recorded) + [RecordedError(restaurantId, platform, errorDetails, items, categories, uuidHex, now)]
      ensures var e := RecordedError(restaurantId, platform, errorDetails, items, categories, uuidHex, now);
        if r.Some? then r.value == e.errorId && errors.rows == old(errors.rows)[ErrorKeyOf(e) := e]
        else errors.rows == old(errors.rows)
    {
      var e := RecordedError(restaurantId, platform, errorDetails, items, categories, uuidHex, now);
      recorded := recorded + [e];
      var ok := errors.SaveError(e);
      r := if ok then Some(e.errorId) else None;
    }

    /** `get_error`: the stored error at the key, or None. */
    method GetError(errorId: string, createdAt: DateTime) returns (r: Option<SyncError>)
      requires errors.Valid()
      ensures ErrorKey(errorId, createdAt.iso) !in errors.rows ==> r.None?
      ensures r.Some? ==> ErrorKey(errorId, createdAt.iso) in errors.rows
                          && r.value == errors.rows[ErrorKey(errorId, createdAt.iso)]
    {
      r := errors.GetError(errorId, createdAt);
    }

    /**
      `get_error` as written: the id alone is handed to the repository's `get_error`, which
      needs `created_at` as well, so every call raises `TypeError` and nothing is read.
     */
    method GetErrorAsWritten(errorId: string) returns (r: Result<Option<SyncError>, string>)
      requires errors.Valid()
      ensures r.Failure? && r.error == GetErrorArityMessage
    {
      r := Failure(GetErrorArityMessage);
    }

    /**
      `get_errors_for_restaurant` as written: the limit is handed on unchanged, so a call
      without one, or with one below 1, fails with the client's validation error; otherwise it
      behaves as `GetErrorsForRestaurant`.
     */
    method GetErrorsForRestaurantAsWritten(restaurantId: string, platform: Option<string> := None, limit: Option<int> := None)
      returns (r: Result<seq<SyncError>, string>, ghost listed: seq<SyncError>, ghost matched: seq<SyncError>)
      requires errors.Valid()
      ensures r.Failure? <==> limit.None? || limit.value < 1
      ensures r.Failure? ==> r.error == LimitError(limit) && listed == []
      ensures r.Success? ==> Matches(errors.rows, restaurantId, limit.value, matched) && listed <= matched
      ensures forall i | 0 <= i < |listed| :: listed[i].restaurantId == restaurantId
                                              && ErrorKeyOf(listed[i]) in errors.rows
                                              && errors.rows[ErrorKeyOf(listed[i])] == listed[i]
      ensures r.Success? ==> r.value == FilterPlatform(listed, platform)
    {
      var page;
      page, matched := errors.ListErrorsForRestaurant(restaurantId, limit);
      if page.Failure? {
        return Failure(page.error), [], matched;
      }
      var found := page.value;
      listed := found;
      r := Success(if platform.Some? && platform.value != [] && found != [] then FilterPlatform(found, platform) else found);
    }

    /**
      `get_errors_for_restaurant` as evidently intended: the repository's page (`listed`, a
      prefix of the errors the query matched with the forwarded limit), filtered by platform
      when one is named; a forwarded limit below 1 fails with the client's validation error.
     */
    method GetErrorsForRestaurant(restaurantId: string, platform: Option<string> := None, limit: Option<int> := None)
      returns (r: Result<seq<SyncError>, string>, ghost listed: seq<SyncError>, ghost matched: seq<SyncError>)
      requires errors.Valid()
      ensures r.Failure? <==> ForwardedLimit(limit) < 1
      ensures r.Failure? ==> r.error == LimitError(Some(ForwardedLimit(limit))) && listed == []
      ensures r.Success? ==> Matches(errors.rows, restaurantId, ForwardedLimit(limit), matched) && listed <= matched
      ensures forall i | 0 <= i < |listed| :: listed[i].restaurantId == restaurantId
                                              && ErrorKeyOf(listed[i]) in errors.rows
                                              && errors.rows[ErrorKeyOf(listed[i])] == listed[i]
      ensures r.Success? ==> r.value == FilterPlatform(listed, platform)
      ensures r.Success? ==> forall e | e in r.value :: e.restaurantId == restaurantId && ErrorKeyOf(e) in errors.rows
      ensures r.Success? && platform.Some? && platform.value != [] ==> forall e | e in r.value :: e.platform == platform.value
    {
      var page;
      page, matched := errors.ListErrorsForRestaurant(restaurantId, Some(ForwardedLimit(limit)));
      if page.Failure? {
        return Failure(page.error), [], matched;
      }
      var found := page.value;
      listed := found;
      r := Success(if platform.Some? && platform.value != [] && found != [] then FilterPlatform(found, platform) else found);
    }

    /**
      `increment_retry_count`: false, and nothing written, when the error cannot be read;
      otherwise the stored count goes up by one exactly when the update reports success.
     */
    method IncrementRetryCount(errorId: string, createdAt: DateTime) returns (ok: bool)
      requires errors.Valid()
      modifies errors
      ensures errors.Valid()
      ensures ErrorKey(errorId, createdAt.iso) !in old(errors.rows) ==> !ok
      ensures var k := ErrorKey(errorId, createdAt.iso);
        errors.rows == if ok then old(errors.rows)[k := old(errors.rows)[k].(retryCount := old(errors.rows)[k].retryCount + 1)]
                       else old(errors.rows)
    {
      var e := errors.GetError(errorId, createdAt);
      if e.None? {
        return false;
      }
      ok := errors.UpdateRetryCount(errorId, createdAt, e.value.retryCount + 1);
    }

    /**
      `increment_retry_count` as written: its first step reads the error with the id alone,
      which raises `TypeError` before any update, so nothing is written.
     */
    method IncrementRetryCountAsWritten(errorId: string) returns (r: Result<bool, string>)
      requires errors.Valid()
      ensures r.Failure? && r.error == GetErrorArityMessage
    {
      r := Failure(GetErrorArityMessage);
    }
  }
}
