/** Admin authentication: the configured API keys and the `X-API-Key` header check. */
module Auth {
  import opened Wrappers

  /** An exception FastAPI turns into an error response. */
  datatype HttpError = HttpError(statusCode: int, detail: string)

  /** `APIKeyValidator`: the configured keys, kept as a set. */
  datatype ApiKeyValidator = ApiKeyValidator(apiKeys: set<string>)

  const NoKeysMessage := "At least one API key must be provided"

  /** `APIKeyValidator(api_keys)`: an empty list is rejected; otherwise the keys become a set. */
  function NewValidator(keys: seq<string>): (r: Result<ApiKeyValidator, string>)
    ensures r.Failure? <==> keys == []
    ensures r.Failure? ==> r.error == NoKeysMessage
    ensures r.Success? ==> forall k :: k in r.value.apiKeys <==> k in keys
  {
    if keys == [] then Failure(NoKeysMessage) else Success(ApiKeyValidator(set k | k in keys))
  }

  /** `validate`: exact membership, with no case folding or trimming. */
  function Validate(v: ApiKeyValidator, key: string): (ok: bool)
    ensures ok <==> key in v.apiKeys
  {
    key in v.apiKeys
  }

  /** A validator built from a list accepts exactly the keys on that list, any of them. */
  lemma ValidateMeansListed(keys: seq<string>, key: string)
    requires keys != []
    ensures Validate(NewValidator(keys).value, key) <==> exists i :: 0 <= i < |keys| && keys[i] == key
  {
    if key in keys {
      var i :| 0 <= i < |keys| && keys[i] == key;
    }
  }

  /** Repeating a key, or listing the keys in another order, builds the same validator. */
  lemma ValidatorIgnoresOrderAndRepeats(a: seq<string>, b: seq<string>)
    requires a != [] && b != []
    requires forall k :: k in a <==> k in b
    ensures NewValidator(a) == NewValidator(b)
  {
    assert NewValidator(a).value.apiKeys == NewValidator(b).value.apiKeys;
  }

  /** Matching is case-sensitive and does not trim: near misses of a key are refused. */
  lemma ValidateIsExact()
    ensures var v := NewValidator(["TestKey123"]).value;
      Validate(v, "TestKey123") && !Validate(v, "testkey123") && !Validate(v, "TESTKEY123")
      && !Validate(v, " TestKey123") && !Validate(v, "TestKey123 ") && !Validate(v, "")
  {
    var v := NewValidator(["TestKey123"]).value;
    assert v.apiKeys == {"TestKey123"};
  }

  const MissingKey := HttpError(401, "Missing API key")
  const InvalidKey := HttpError(401, "Invalid API key")

  /**
    `get_api_key_from_header`: a missing or empty header is refused whatever the validator; a
    key the validator (when there is one) does not accept is refused; any other key is returned
    as it came.
   */
  function GetApiKeyFromHeader(header: Option<string>, validator: Option<ApiKeyValidator>): (r: Result<string, HttpError>)
    ensures header.None? || header.value == [] ==> r == Failure(MissingKey)
    ensures header.Some? && header.value != [] && validator.Some? && !Validate(validator.value, header.value)
            ==> r == Failure(InvalidKey)
    ensures r.Success? <==> header.Some? && header.value != [] && (validator.None? || Validate(validator.value, header.value))
    ensures r.Success? ==> r.value == header.value
  {
    if header.None? || header.value == [] then Failure(MissingKey)
    else if validator.Some? && !Validate(validator.value, header.value) then Failure(InvalidKey)
    else Success(header.value)
  }
}
