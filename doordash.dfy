/** The DoorDash adapter: base-URL selection, the menu document it builds, and its publish outcome. */
module DoorDash {
  import opened Wrappers
  import opened Values
  import opened Decimals
  import opened MenuModels
  import opened Adapters

  const ProductionUrl := "https://openapi.doordash.com"
  const SandboxUrl := "https://openapi-sandbox.doordash.com"

  datatype DoorDashAdapter = DoorDashAdapter(
    clientId: string,
    clientSecret: string,
    environment: string,
    baseUrl: string)

  /** `DoorDashAdapter(...)`: the production API only for the "production" environment. */
  function NewDoorDash(clientId: string, clientSecret: string, environment: string := "sandbox"): (a: DoorDashAdapter)
    ensures a.baseUrl == ProductionUrl <==> environment == "production"
    ensures a.baseUrl == SandboxUrl <==> environment != "production"
    ensures a.clientId == clientId && a.clientSecret == clientSecret && a.environment == environment
  {
    DoorDashAdapter(clientId, clientSecret, environment,
      if environment == "production" then ProductionUrl else SandboxUrl)
  }

  lemma DefaultEnvironmentIsSandbox(clientId: string, clientSecret: string)
    ensures NewDoorDash(clientId, clientSecret).baseUrl == SandboxUrl
  {
  }

  // ---------------------------------------------------------------------------------------
  // format_menu

  /** `[item for item in items if item.available]`. */
  function Available(items: seq<MenuItem>): (r: seq<MenuItem>)
    ensures |r| <= |items|
    ensures forall it :: it in r <==> it in items && it.available
  {
    if items == [] then []
    else (if items[0].available then [items[0]] else []) + Available(items[1..])
  }

  /** Filtering a concatenation filters each part in turn, so the input order is kept. */
  lemma {:induction false} AvailableAppend(a: seq<MenuItem>, b: seq<MenuItem>)
    ensures Available(a + b) == Available(a) + Available(b)
    decreases |a|
  {
    if a == [] {
      assert a + b == b;
    } else {
      assert (a + b)[0] == a[0];
      assert (a + b)[1..] == a[1..] + b;
      AvailableAppend(a[1..], b);
    }
  }

  /** Nothing is dropped when every item is available. */
  lemma {:induction false} AvailableKeepsAll(items: seq<MenuItem>)
    requires forall i | 0 <= i < |items| :: items[i].available
    ensures Available(items) == items
    decreases |items|
  {
    if items != [] {
      AvailableKeepsAll(items[1..]);
    }
  }

  /** `int(price * 100)`: Python's `int` truncates toward zero. */
  function PriceCents(price: Decimal): (cents: int)
    ensures !price.negative ==> cents >= 0
  {
    var n := price.units * 100;
    var p := Pow10(price.scale);
    DivisionOfNatural(n, p);
    var magnitude := n / p;
    if price.negative then -magnitude else magnitude
  }

  /** For a non-negative price the cents are the whole part of price times 100. */
  lemma PriceCentsFloor(price: Decimal)
    requires !price.negative
    ensures PriceCents(price) as real <= Value(price) * 100.0 < PriceCents(price) as real + 1.0
  {
    var p := Pow10(price.scale);
    var n := price.units * 100;
    var q := n / p;
    assert n == q * p + n % p;
    assert Value(price) * 100.0 == n as real / p as real;
    assert (q * p) as real <= n as real < ((q + 1) * p) as real;
    DivideBounds(q, n, p);
  }

  lemma DivisionOfNatural(n: int, p: int)
    requires n >= 0 && p > 0
    ensures n / p >= 0
  {
  }

  /** `q` is the whole part of `n / p` when `q * p <= n < (q + 1) * p`. */
  lemma DivideBounds(q: int, n: int, p: nat)
    requires p > 0 && q * p <= n < (q + 1) * p
    ensures q as real <= n as real / p as real < q as real + 1.0
  {
    var x := n as real / p as real;
    var pr := p as real;
    assert x * pr == n as real;
    assert (q * p) as real == q as real * pr;
    assert ((q + 1) * p) as real == (q as real + 1.0) * pr;
    ScaleBack(q as real, x, pr);
    ScaleBackStrict(x, q as real + 1.0, pr);
  }

  lemma ScaleBack(a: real, b: real, p: real)
    requires p > 0.0 && a * p <= b * p
    ensures a <= b
  {
  }

  lemma ScaleBackStrict(a: real, b: real, p: real)
    requires p > 0.0 && a * p < b * p
    ensures a < b
  {
  }

  lemma PriceCentsExamples()
    ensures PriceCents(Decimal(false, 1299, 2)) == 1299
    ensures PriceCents(Decimal(false, 450, 2)) == 450
    ensures PriceCents(Decimal(false, 1000, 2)) == 1000
  {
  }

  function FormatCategory(c: Category): (d: Dict)
    ensures d.Keys == {"id", "name", "description", "sort_order"}
    ensures d["id"] == JStr(c.id) && d["name"] == JStr(c.name) && d["sort_order"] == JNum(c.sortOrder)
    ensures d["description"] == OptionalText(c.description)
  {
    map["id" := JStr(c.id), "name" := JStr(c.name), "description" := OptionalText(c.description),
        "sort_order" := JNum(c.sortOrder)]
  }

  function FormatItem(item: MenuItem): (d: Dict)
    ensures d.Keys == {"id", "name", "description", "price", "category_id", "image_url"}
    ensures d["id"] == JStr(item.id) && d["name"] == JStr(item.name) && d["price"] == JNum(PriceCents(item.price))
    ensures d["description"] == OptionalText(item.description) && d["category_id"] == JStr(item.categoryId)
    ensures d["image_url"] == OptionalText(item.imageUrl)
  {
    map["id" := JStr(item.id), "name" := JStr(item.name), "description" := OptionalText(item.description),
        "price" := JNum(PriceCents(item.price)), "category_id" := JStr(item.categoryId),
        "image_url" := OptionalText(item.imageUrl)]
  }

  /** A `str | None` as it appears in a JSON document. */
  function OptionalText(s: Option<string>): (j: Json)
    ensures j == JNull <==> s.None?
    ensures s.Some? ==> j == JStr(s.value)
  {
    match s
    case Some(t) => JStr(t)
    case None => JNull
  }

  function MapCategories(cs: seq<Category>): (r: seq<Json>)
    ensures |r| == |cs| && forall i | 0 <= i < |cs| :: r[i] == JObj(FormatCategory(cs[i]))
  {
    if cs == [] then [] else [JObj(FormatCategory(cs[0]))] + MapCategories(cs[1..])
  }

  function MapItems(items: seq<MenuItem>): (r: seq<Json>)
    ensures |r| == |items| && forall i | 0 <= i < |items| :: r[i] == JObj(FormatItem(items[i]))
  {
    if items == [] then [] else [JObj(FormatItem(items[0]))] + MapItems(items[1..])
  }

  /**
    `format_menu`: a `{"menu": {"categories": ..., "items": ...}}` document with every category,
    in order, and the available items only, in order, priced in cents.
   */
  function FormatMenu(items: seq<MenuItem>, categories: seq<Category>): (r: Option<Dict>)
    ensures r.Some?
    ensures r.value.Keys == {"menu"} && r.value["menu"].JObj?
    ensures var menu := r.value["menu"].fields;
      && menu.Keys == {"categories", "items"}
      && menu["categories"] == JArr(MapCategories(categories))
      && menu["items"] == JArr(MapItems(Available(items)))
  {
    Some(map["menu" := JObj(map["categories" := JArr(MapCategories(categories)),
                                "items" := JArr(MapItems(Available(items)))])])
  }

  /** The item entries of a formatted menu. */
  function ItemEntries(menu: Dict): seq<Json> {
    if "menu" in menu && menu["menu"].JObj? && "items" in menu["menu"].fields && menu["menu"].fields["items"].JArr?
    then menu["menu"].fields["items"].elems
    else []
  }

  /** The category entries of a formatted menu. */
  function CategoryEntries(menu: Dict): seq<Json> {
    if "menu" in menu && menu["menu"].JObj? && "categories" in menu["menu"].fields
       && menu["menu"].fields["categories"].JArr?
    then menu["menu"].fields["categories"].elems
    else []
  }

  /**
    Each item entry of the formatted menu is an available input item, formatted with its price in
    cents, every available input item has one, and every category entry is its category with its
    id, name, description and sort order.
   */
  lemma FormatMenuEntries(items: seq<MenuItem>, categories: seq<Category>)
    ensures var entries := ItemEntries(FormatMenu(items, categories).value);
      && |entries| == |Available(items)|
      && forall i | 0 <= i < |entries| ::
           Available(items)[i].available && Available(items)[i] in items
           && entries[i] == JObj(FormatItem(Available(items)[i]))
           && entries[i].fields["id"] == JStr(Available(items)[i].id)
           && entries[i].fields["price"] == JNum(PriceCents(Available(items)[i].price))
    ensures var entries := CategoryEntries(FormatMenu(items, categories).value);
      && |entries| == |categories|
      && forall i | 0 <= i < |entries| ::
           && entries[i] == JObj(FormatCategory(categories[i]))
           && entries[i].fields["id"] == JStr(categories[i].id)
           && entries[i].fields["name"] == JStr(categories[i].name)
           && entries[i].fields["description"] == OptionalText(categories[i].description)
           && entries[i].fields["sort_order"] == JNum(categories[i].sortOrder)
  {
    var avail := Available(items);
    forall i | 0 <= i < |avail|
      ensures avail[i].available && avail[i] in items
    {
      assert avail[i] in avail;
    }
  }

  /** Empty inputs give a document whose item and category lists are empty, not no document. */
  lemma FormatEmptyMenu()
    ensures FormatMenu([], []).Some?
    ensures ItemEntries(FormatMenu([], []).value) == [] && CategoryEntries(FormatMenu([], []).value) == []
  {
  }

  // ---------------------------------------------------------------------------------------
  // publish_menu

  function TokenRequest(a: DoorDashAdapter): Request {
    PostForm(a.baseUrl + "/auth/token",
      map["grant_type" := "client_credentials", "client_id" := a.clientId, "client_secret" := a.clientSecret])
  }

  /** The external store a restaurant's menu is uploaded to. */
  function StoreId(restaurantId: string): string {
    "ext_" + restaurantId
  }

  function MenuUrl(a: DoorDashAdapter, restaurantId: string): string {
    a.baseUrl + "/v1/stores/" + StoreId(restaurantId) + "/menu"
  }

  /** The access token in a token response, if the body is a JSON object that has one. */
  function AccessToken(reply: HttpReply): Option<Json> {
    if reply.HttpReply? && reply.body.Some? && reply.body.value.JObj? && "access_token" in reply.body.value.fields
    then Some(reply.body.value.fields["access_token"])
    else None
  }

  /**
    `publish_menu`: ask for a token; stop with false unless the answer is 200 and carries one;
    then upload the menu to the restaurant's external store, and report whether that answer is 200.
   */
  function Publish(a: DoorDashAdapter, restaurantId: string, menu: Dict, ex: Exchange): (run: PublishRun)
    ensures 1 <= |run.sent| <= 2 && run.sent[0] == TokenRequest(a)
    ensures run.accepted <==> && ex.auth.HttpReply? && ex.auth.statusCode == 200 && AccessToken(ex.auth).Some?
                              && ex.upload.HttpReply? && ex.upload.statusCode == 200
    ensures |run.sent| == 2 <==> ex.auth.HttpReply? && ex.auth.statusCode == 200 && AccessToken(ex.auth).Some?
    ensures |run.sent| == 2 ==> run.sent[1] == PutJson(MenuUrl(a, restaurantId), JObj(menu), AccessToken(ex.auth).value)
  {
    var auth := TokenRequest(a);
    if !ex.auth.HttpReply? || ex.auth.statusCode != 200 then PublishRun([auth], false)
    else match AccessToken(ex.auth)
      case None => PublishRun([auth], false)
      case Some(token) =>
        var upload := PutJson(MenuUrl(a, restaurantId), JObj(menu), token);
        PublishRun([auth, upload], ex.upload.HttpReply? && ex.upload.statusCode == 200)
  }

  /** The upload goes to the `ext_`-prefixed store under the adapter's base URL. */
  lemma UploadTarget(a: DoorDashAdapter, restaurantId: string, menu: Dict, ex: Exchange)
    requires |Publish(a, restaurantId, menu, ex).sent| == 2
    ensures var url := Publish(a, restaurantId, menu, ex).sent[1].url;
      url == a.baseUrl + "/v1/stores/ext_" + restaurantId + "/menu"
  {
    assert a.baseUrl + "/v1/stores/" + ("ext_" + restaurantId) + "/menu"
        == a.baseUrl + "/v1/stores/ext_" + restaurantId + "/menu";
  }

  /** The adapter seen through the platform-adapter contract. */
  function AsAdapter(a: DoorDashAdapter): PlatformAdapter {
    PlatformAdapter("doordash", (items, categories) => FormatMenu(items, categories),
      (rid, menu, ex) => Publish(a, rid, menu, ex))
  }

  /** The adapter is named "doordash", formats as `FormatMenu` does and publishes as `Publish` does. */
  lemma AsAdapterBehaves(a: DoorDashAdapter)
    ensures AsAdapter(a).platformName == "doordash"
    ensures forall items, categories :: AsAdapter(a).formatMenu(items, categories) == FormatMenu(items, categories)
    ensures forall rid, menu, ex :: AsAdapter(a).publishMenu(rid, menu, ex) == Publish(a, rid, menu, ex)
  {
  }
}
