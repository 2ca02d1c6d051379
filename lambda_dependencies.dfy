/**
  The Lambda container's wiring: configuration read from the environment, and factories that
  build each service once and hand out the cached object on every later call.
 */
module LambdaDependencies {
  import Values
  import opened Wrappers
  import opened Text
  import opened Decimals
  import opened SyncRepositories
  import opened Adapters
  import opened DoorDash
  import opened SyncServices
  import opened ErrorServices
  import opened EventHandlers
  import opened Auth
  import opened AdminApi

  /** The process environment. */
  type Env = map<string, string>

  /** `os.getenv(key, default)`: a dictionary lookup with a default. */
  function Getenv(env: Env, key: string, default: string): string {
    Values.Get(env, key, default)
  }

  /** `os.getenv(key)` is truthy: set and not empty. */
  predicate IsSet(env: Env, key: string) {
    key in env && env[key] != []
  }

  /** The dotted name of the event handler's module. */
  const EventHandlerModule := "restaurant_sync_service.handlers.event_handler"

  /**
    `from source import name`: the name when the module `source` binds it, otherwise
    `ImportError` (whose text goes on with the module's file path, which is not modelled).
   */
  function ImportFrom(bound: set<string>, source: string, name: string): (r: Result<string, string>)
    ensures r.Success? <==> name in bound
    ensures r.Success? ==> r.value == name
    ensures r.Failure? ==> r.error == ImportErrorMessage(name, source)
  {
    if name in bound then Success(name) else Failure(ImportErrorMessage(name, source))
  }

  function ImportErrorMessage(name: string, source: string): string {
    "cannot import name '" + name + "' from '" + source + "'"
  }

  /**
    As written, this module imports `MenuEventHandler` from the event handler's module, which
    binds no such name, so loading it raises `ImportError`; the Lambda handler's module imports
    this one when it is loaded, so no invocation gets to run.
   */
  lemma EventHandlerImportAsWritten()
    ensures ImportFrom(ModuleNames, EventHandlerModule, "MenuEventHandler")
            == Failure(ImportErrorMessage("MenuEventHandler", EventHandlerModule))
  {
    assert "MenuEventHandler"[4] != "MenuChangedEvent"[4];
  }

  /** The class the module defines, `EventHandler`, is what the factories below build. */
  lemma EventHandlerImport()
    ensures ImportFrom(ModuleNames, EventHandlerModule, "EventHandler") == Success("EventHandler")
  {
  }

  // Integers in text

  /**
    `int(s)`: surrounding whitespace, an optional sign, then at least one decimal digit
    (leading zeros allowed).
   */
  function ParseInt(s: string): (r: Option<int>)
    ensures r.Some? ==> Strip(s) != []
  {
    var t := Strip(s);
    if t == [] then None
    else
      var signed := t[0] == '-' || t[0] == '+';
      var digits := if signed then t[1..] else t;
      if digits == [] || !AllDigits(digits) then None
      else if t[0] == '-' then Some(0 - NumberOf(digits))
      else Some(NumberOf(digits))
  }

  lemma StripKeeps(s: string)
    requires s != [] && !IsWhitespace(s[0]) && !IsWhitespace(s[|s| - 1])
    ensures Strip(s) == s
  {
  }

  /** `int(str(n)) == n`. */
  lemma ParseIntText(n: int)
    ensures ParseInt(IntText(n)) == Some(n)
  {
    var s := IntText(n);
    var d := DigitsOf(if n < 0 then -n else n);
    assert !IsWhitespace(d[|d| - 1]) && !IsWhitespace(d[0]);
    if n < 0 {
      assert s[|s| - 1] == d[|d| - 1] && s[0] == '-';
      assert s[1..] == d;
    }
    StripKeeps(s);
    NumberOfDigitsOf(if n < 0 then -n else n);
  }

  /** `ValueError` text for a text `int()` refuses. */
  function IntErrorMessage(s: string): string {
    "invalid literal for int() with base 10: " + Repr(s)
  }

  // Configuration

  const DevelopmentKey := "dummy-key-for-development"
  const MenuServiceMessage := "MENU_SERVICE_BASE_URL and MENU_SERVICE_API_KEY must be set in environment"

  /** `[key.strip() for key in parts if key.strip()]`. */
  function StrippedKeys(parts: seq<string>): (keys: seq<string>)
    ensures |keys| <= |parts|
  {
    if parts == [] then []
    else
      var k := Strip(parts[0]);
      if k != [] then [k] + StrippedKeys(parts[1..]) else StrippedKeys(parts[1..])
  }

  /** No kept key is empty or has whitespace at an end. */
  lemma {:induction false} StrippedKeysTrimmed(parts: seq<string>)
    ensures forall k | k in StrippedKeys(parts) :: k != [] && !IsWhitespace(k[0]) && !IsWhitespace(k[|k| - 1])
  {
    if parts != [] {
      StripShape(parts[0]);
      StrippedKeysTrimmed(parts[1..]);
    }
  }

  /** The kept keys are exactly the non-empty trimmed entries. */
  lemma {:induction false} StrippedKeysMembers(parts: seq<string>)
    ensures forall k :: k in StrippedKeys(parts) <==> exists i | 0 <= i < |parts| :: Strip(parts[i]) == k && k != []
  {
    if parts != [] {
      StrippedKeysMembers(parts[1..]);
      var first := Strip(parts[0]);
      assert StrippedKeys(parts) == (if first != [] then [first] else []) + StrippedKeys(parts[1..]);
      forall k ensures k in StrippedKeys(parts) <==> exists i | 0 <= i < |parts| :: Strip(parts[i]) == k && k != [] {
        if k in StrippedKeys(parts[1..]) {
          var j :| 0 <= j < |parts[1..]| && Strip(parts[1..][j]) == k && k != [];
          assert Strip(parts[j + 1]) == k;
        }
        if i :| 0 <= i < |parts| && Strip(parts[i]) == k && k != [] {
          if i > 0 {
            assert Strip(parts[1..][i - 1]) == k;
          }
        }
      }
    }
  }

  /**
    The admin keys of `get_fastapi_app`: `ADMIN_API_KEY` split at commas, each entry trimmed,
    empty entries dropped; the development key when nothing is left.
   */
  function AdminKeys(env: Env): (keys: seq<string>)
    ensures keys != []
  {
    var keys := StrippedKeys(Split(Getenv(env, "ADMIN_API_KEY", ""), ','));
    if keys == [] then [DevelopmentKey] else keys
  }

  /** Every configured admin key is one comma-free, trimmed, non-empty piece of the setting. */
  lemma AdminKeysArePieces(env: Env)
    requires "ADMIN_API_KEY" in env
    requires StrippedKeys(Split(env["ADMIN_API_KEY"], ',')) != []
    ensures forall k | k in AdminKeys(env) ::
      && k != [] && !IsWhitespace(k[0]) && !IsWhitespace(k[|k| - 1]) && ',' !in k
      && exists p | p in Split(env["ADMIN_API_KEY"], ',') :: Strip(p) == k
  {
    var parts := Split(env["ADMIN_API_KEY"], ',');
    SplitPartsHaveNoSeparator(env["ADMIN_API_KEY"], ',');
    StrippedKeysTrimmed(parts);
    StrippedKeysMembers(parts);
    forall k | k in AdminKeys(env)
      ensures ',' !in k && exists p | p in parts :: Strip(p) == k
    {
      var i :| 0 <= i < |parts| && Strip(parts[i]) == k;
      StripShape(parts[i]);
      assert parts[i] in parts;
    }
  }

  /** Without a usable `ADMIN_API_KEY` the app accepts only the development key. */
  lemma NoAdminKeyMeansDevelopmentKey(env: Env)
    requires "ADMIN_API_KEY" !in env
    ensures AdminKeys(env) == [DevelopmentKey]
  {
    assert Split("", ',') == [""];
    assert Strip("") == "";
    assert StrippedKeys([""]) == StrippedKeys([""][1..]) == [];
  }

  /** The admin keys always make a validator: `create_app` never refuses them. */
  lemma AdminKeysMakeValidator(env: Env)
    ensures NewValidator(AdminKeys(env)).Success?
  {
  }

  /** `ENABLE_DOORDASH_SYNC` (default "true") lowered is "true". */
  predicate DoorDashEnabled(env: Env) {
    Lower(Getenv(env, "ENABLE_DOORDASH_SYNC", "true")) == "true"
  }

  /** Sync is enabled when the setting is absent, and for any capitalisation of "true". */
  lemma DoorDashEnabledExamples(env: Env)
    ensures "ENABLE_DOORDASH_SYNC" !in env ==> DoorDashEnabled(env)
    ensures "ENABLE_DOORDASH_SYNC" in env && env["ENABLE_DOORDASH_SYNC"] == "TRUE" ==> DoorDashEnabled(env)
    ensures "ENABLE_DOORDASH_SYNC" in env && env["ENABLE_DOORDASH_SYNC"] == "false" ==> !DoorDashEnabled(env)
  {
    assert Lower("true") == "true";
    assert Lower("TRUE") == "true";
    assert Lower("false")[0] == 'f';
  }

  function DoorDashOf(env: Env): PlatformAdapter
    requires IsSet(env, "DOORDASH_CLIENT_ID") && IsSet(env, "DOORDASH_CLIENT_SECRET")
  {
    AsAdapter(NewDoorDash(env["DOORDASH_CLIENT_ID"], env["DOORDASH_CLIENT_SECRET"],
                          Getenv(env, "DOORDASH_ENVIRONMENT", "sandbox")))
  }

  /**
    The adapters `get_platform_adapters` configures: "doordash" exactly when sync is enabled
    and both credentials are set, built for `DOORDASH_ENVIRONMENT` (default "sandbox").
   */
  function ConfiguredAdapters(env: Env): map<string, PlatformAdapter> {
    if DoorDashEnabled(env) && IsSet(env, "DOORDASH_CLIENT_ID") && IsSet(env, "DOORDASH_CLIENT_SECRET")
    then map["doordash" := DoorDashOf(env)]
    else map[]
  }

  /** At most one platform is configured, and an unset environment selects the sandbox. */
  lemma ConfiguredAdaptersShape(env: Env)
    ensures ConfiguredAdapters(env).Keys <= {"doordash"}
    ensures "doordash" in ConfiguredAdapters(env) <==>
      DoorDashEnabled(env) && IsSet(env, "DOORDASH_CLIENT_ID") && IsSet(env, "DOORDASH_CLIENT_SECRET")
    ensures "doordash" in ConfiguredAdapters(env) ==> ConfiguredAdapters(env)["doordash"] == DoorDashOf(env)
    ensures |ConfiguredAdapters(env)| <= 1
    ensures "doordash" in ConfiguredAdapters(env) && "DOORDASH_ENVIRONMENT" !in env ==>
      NewDoorDash(env["DOORDASH_CLIENT_ID"], env["DOORDASH_CLIENT_SECRET"], Getenv(env, "DOORDASH_ENVIRONMENT", "sandbox")).baseUrl
      == SandboxUrl
  {
    var m := ConfiguredAdapters(env);
    if "doordash" in m {
      assert m.Keys == {"doordash"};
    } else {
      assert m.Keys == {};
    }
  }

  predicate MenuServiceConfigured(env: Env) {
    IsSet(env, "MENU_SERVICE_BASE_URL") && IsSet(env, "MENU_SERVICE_API_KEY")
  }

  /** `int(os.getenv("RETRY_DELAY_SECONDS", "2"))`. */
  function RetryDelay(env: Env): Option<int> {
    ParseInt(Getenv(env, "RETRY_DELAY_SECONDS", "2"))
  }

  /** The retry delay is 2 seconds without a setting, and the setting's number otherwise. */
  lemma RetryDelayDefault(env: Env, n: int)
    ensures "RETRY_DELAY_SECONDS" !in env ==> RetryDelay(env) == Some(2)
    ensures "RETRY_DELAY_SECONDS" in env && env["RETRY_DELAY_SECONDS"] == IntText(n) ==> RetryDelay(env) == Some(n)
  {
    ParseIntText(2);
    ParseIntText(n);
  }

  function StatusTableName(env: Env): string {
    Getenv(env, "DYNAMODB_SYNC_STATUS_TABLE", "restaurant-sync-status")
  }

  function ErrorTableName(env: Env): string {
    Getenv(env, "DYNAMODB_SYNC_ERRORS_TABLE", "restaurant-sync-errors")
  }

  /**
    The container's caches. The two tables are the ones the DynamoDB resource opens under the
    configured names; the menu service client is carried by the sync passes' worlds.
   */
  class Container {
    const env: Env
    const statusTable: StatusRepository
    const errorTable: ErrorRepository
    var platformAdapters: Option<map<string, PlatformAdapter>>
    var syncService: Option<SyncService>
    var errorService: Option<ErrorService>
    var eventHandler: Option<EventHandler>
    var app: Option<AdminApp>

    /**
      The cached services work on the container's tables, and the cached handler and app are
      built from the cached services and adapters.
     */
    ghost predicate Valid()
      reads this
    {
      && (platformAdapters.Some? ==> platformAdapters.value.Keys <= {"doordash"})
      && (syncService.Some? ==> syncService.value.statuses == statusTable)
      && (errorService.Some? ==> errorService.value.errors == errorTable)
      && (eventHandler.Some? ==>
            && syncService.Some? && errorService.Some? && platformAdapters.Some?
            && eventHandler.value.sync == syncService.value && eventHandler.value.recorder == errorService.value
            && eventHandler.value.adapters == platformAdapters.value)
      && (app.Some? ==>
            && syncService.Some? && errorService.Some? && platformAdapters.Some?
            && app.value.sync == syncService.value && app.value.recorder == errorService.value
            && app.value.adapters == platformAdapters.value)
    }

    /** The cached services, whose state a request may change. */
    function Services(): set<object>
      reads this
    {
      (if syncService.Some? then {syncService.value} else {})
      + (if errorService.Some? then {errorService.value} else {})
    }

    /** A cold start: nothing cached yet. */
    constructor (env: Env, statusTable: StatusRepository, errorTable: ErrorRepository)
      requires statusTable.tableName == StatusTableName(env) && errorTable.tableName == ErrorTableName(env)
      ensures Valid()
      ensures this.env == env && this.statusTable == statusTable && this.errorTable == errorTable
      ensures platformAdapters.None? && syncService.None? && errorService.None? && eventHandler.None? && app.None?
    {
      this.env := env;
      this.statusTable := statusTable;
      this.errorTable := errorTable;
      platformAdapters, syncService, errorService, eventHandler, app := None, None, None, None, None;
    }

    /** `get_platform_adapters`: the cached map, or the map built (and cached) from the environment. */
    method GetPlatformAdapters() returns (adapters: map<string, PlatformAdapter>)
      requires Valid()
      modifies this
      ensures Valid()
      ensures old(platformAdapters).Some? ==> adapters == old(platformAdapters).value
      ensures old(platformAdapters).None? ==> adapters == ConfiguredAdapters(env)
      ensures platformAdapters == Some(adapters)
      ensures syncService == old(syncService) && errorService == old(errorService)
      ensures eventHandler == old(eventHandler) && app == old(app)
    {
      if platformAdapters.Some? {
        return platformAdapters.value;
      }
      adapters := map[];
      if DoorDashEnabled(env) {
        var clientId := Getenv(env, "DOORDASH_CLIENT_ID", "");
        var clientSecret := Getenv(env, "DOORDASH_CLIENT_SECRET", "");
        var environment := Getenv(env, "DOORDASH_ENVIRONMENT", "sandbox");
        if clientId != [] && clientSecret != [] {
          adapters := adapters["doordash" := AsAdapter(NewDoorDash(clientId, clientSecret, environment))];
        }
      }
      platformAdapters := Some(adapters);
    }

    /**
      `get_sync_service`: the cached service; otherwise a `ValueError` when the menu service is
      not configured or the retry delay is not an integer, and a new service (then cached) over
      the status table with that delay.
     */
    method GetSyncService() returns (r: Result<SyncService, string>)
      requires Valid()
      modifies this
      ensures Valid()
      ensures old(syncService).Some? ==> r == Success(old(syncService).value)
      ensures old(syncService).None? && !MenuServiceConfigured(env) ==> r == Failure(MenuServiceMessage)
      ensures old(syncService).None? && MenuServiceConfigured(env) && RetryDelay(env).None? ==>
        r == Failure(IntErrorMessage(Getenv(env, "RETRY_DELAY_SECONDS", "2")))
      ensures old(syncService).None? && r.Success? ==>
        && MenuServiceConfigured(env) && RetryDelay(env).Some?
        && fresh(r.value) && r.value.log == [] && r.value.retryDelaySeconds == RetryDelay(env).value
      ensures r.Success? ==> syncService == Some(r.value) && r.value.statuses == statusTable
      ensures r.Failure? ==> old(syncService).None? && (!MenuServiceConfigured(env) || RetryDelay(env).None?)
      ensures r.Failure? ==> syncService == old(syncService)
      ensures platformAdapters == old(platformAdapters) && errorService == old(errorService)
      ensures eventHandler == old(eventHandler) && app == old(app)
    {
      if syncService.Some? {
        return Success(syncService.value);
      }
      if !IsSet(env, "MENU_SERVICE_BASE_URL") || !IsSet(env, "MENU_SERVICE_API_KEY") {
        return Failure(MenuServiceMessage);
      }
      var delayText := Getenv(env, "RETRY_DELAY_SECONDS", "2");
      var delay := ParseInt(delayText);
      if delay.None? {
        return Failure(IntErrorMessage(delayText));
      }
      var service := new SyncService(statusTable, delay.value);
      syncService := Some(service);
      r := Success(service);
    }

    /** `get_error_service`: the cached service, or a new one (then cached) over the error table. */
    method GetErrorService() returns (s: ErrorService)
      requires Valid()
      modifies this
      ensures Valid()
      ensures old(errorService).Some? ==> s == old(errorService).value
      ensures old(errorService).None? ==> fresh(s) && s.recorded == []
      ensures errorService == Some(s) && s.errors == errorTable
      ensures platformAdapters == old(platformAdapters) && syncService == old(syncService)
      ensures eventHandler == old(eventHandler) && app == old(app)
    {
      if errorService.Some? {
        return errorService.value;
      }
      s := new ErrorService(errorTable);
      errorService := Some(s);
    }

    /**
      `get_event_handler`: the cached handler, or one built (then cached) from the cached or new
      sync service, error service and adapters; it fails as `get_sync_service` does.
     */
    method GetEventHandler() returns (r: Result<EventHandler, string>)
      requires Valid()
      modifies this
      ensures Valid()
      ensures old(eventHandler).Some? ==> r == Success(old(eventHandler).value)
      ensures old(eventHandler).None? && old(syncService).None? && !MenuServiceConfigured(env) ==>
        r == Failure(MenuServiceMessage)
      ensures old(eventHandler).None? && old(syncService).None? && MenuServiceConfigured(env) && RetryDelay(env).None? ==>
        r == Failure(IntErrorMessage(Getenv(env, "RETRY_DELAY_SECONDS", "2")))
      ensures old(eventHandler).None? && r.Failure? ==>
        old(syncService).None? && (!MenuServiceConfigured(env) || RetryDelay(env).None?)
      ensures old(eventHandler).None? && old(syncService).Some? ==> r.Success?
      ensures old(eventHandler).None? && old(platformAdapters).None? && r.Success? ==>
        r.value.adapters == ConfiguredAdapters(env)
      ensures r.Success? ==> eventHandler == Some(r.value) && r.value.adapters.Keys <= {"doordash"}
      ensures r.Success? ==> r.value.sync.statuses == statusTable && r.value.recorder.errors == errorTable
      ensures r.Success? ==> (r.value.sync in old(Services()) || fresh(r.value.sync))
                              && (r.value.recorder in old(Services()) || fresh(r.value.recorder))
      ensures r.Failure? ==> eventHandler == old(eventHandler) && errorService == old(errorService)
      ensures app == old(app)
    {
      if eventHandler.Some? {
        return Success(eventHandler.value);
      }
      var service := GetSyncService();
      if service.Failure? {
        return Failure(service.error);
      }
      var sync := service.value;
      var recorder := GetErrorService();
      var adapters := GetPlatformAdapters();
      var handler := new EventHandler(sync, recorder, adapters);
      eventHandler := Some(handler);
      r := Success(handler);
    }

    /**
      `get_fastapi_app`: the cached app, or one built (then cached) from the shared services and
      adapters with the admin keys of the environment; it fails as `get_sync_service` does.
     */
    method GetFastapiApp() returns (r: Result<AdminApp, string>)
      requires Valid()
      modifies this
      ensures Valid()
      ensures old(app).Some? ==> r == Success(old(app).value)
      ensures old(app).None? && old(syncService).None? && !MenuServiceConfigured(env) ==>
        r == Failure(MenuServiceMessage)
      ensures old(app).None? && old(syncService).None? && MenuServiceConfigured(env) && RetryDelay(env).None? ==>
        r == Failure(IntErrorMessage(Getenv(env, "RETRY_DELAY_SECONDS", "2")))
      ensures old(app).None? && r.Failure? ==>
        old(syncService).None? && (!MenuServiceConfigured(env) || RetryDelay(env).None?)
      ensures old(app).None? && old(syncService).Some? ==> r.Success?
      ensures old(app).None? && r.Success? ==> r.value.validator == NewValidator(AdminKeys(env)).value
      ensures r.Success? ==> app == Some(r.value)
      ensures r.Failure? ==> app == old(app) && errorService == old(errorService)
      ensures eventHandler == old(eventHandler)
    {
      if app.Some? {
        return Success(app.value);
      }
      var service := GetSyncService();
      if service.Failure? {
        return Failure(service.error);
      }
      var sync := service.value;
      var recorder := GetErrorService();
      var adapters := GetPlatformAdapters();
      var keys := AdminKeys(env);
      var created := CreateApp(sync, recorder, adapters, keys);
      if created.Failure? {
        assert false;
        return Failure([]);
      }
      app := Some(created.value);
      r := Success(created.value);
    }
  }
}
