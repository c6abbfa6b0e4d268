/**
 * The API configuration store (`ConfigurationService`): endpoint and API key
 * kept in a string key-value store, a loaded `configuration`, and the
 * derived `isConfigured` flag.
 */
module Configuration {
  import opened Wrappers

  datatype ApiConfiguration = ApiConfiguration(endpoint: string, apiKey: string)

  const EndpointKey: string := "api_endpoint"
  const ApiKeyKey: string := "api_key"

  /** `string(forKey:) ?? ""`. */
  function Read(store: map<string, string>, key: string): string
  {
    if key in store then store[key] else ""
  }

  /** What `load()` finds: a configuration exactly when both stored parts are non-empty. */
  function Loaded(store: map<string, string>): (r: Option<ApiConfiguration>)
    ensures r.Some? <==> Read(store, EndpointKey) != "" && Read(store, ApiKeyKey) != ""
    ensures r.Some? ==> r.value == ApiConfiguration(Read(store, EndpointKey), Read(store, ApiKeyKey))
  {
    var endpoint := Read(store, EndpointKey);
    var apiKey := Read(store, ApiKeyKey);
    if endpoint != "" && apiKey != "" then Some(ApiConfiguration(endpoint, apiKey)) else None
  }

  class ConfigurationService {
    var store: map<string, string>
    var configuration: Option<ApiConfiguration>
    var isConfigured: bool

    /** `isConfigured` mirrors whether a configuration is set. */
    predicate Valid()
      reads this
    {
      isConfigured == configuration.Some?
    }

    /** The initializer loads from the store. */
    constructor(store: map<string, string>)
      ensures this.store == store
      ensures configuration == Loaded(store)
      ensures Valid()
    {
      this.store := store;
      configuration := Loaded(store);
      isConfigured := Loaded(store).Some?;
    }

    method Load()
      modifies this
      ensures store == old(store)
      ensures configuration == Loaded(store)
      ensures Valid()
    {
      configuration := Loaded(store);
      isConfigured := configuration.Some?;
    }

    /** Stores both parts and takes the given configuration as is, even with an empty part. */
    method Save(c: ApiConfiguration)
      modifies this
      ensures store == old(store)[EndpointKey := c.endpoint][ApiKeyKey := c.apiKey]
      ensures configuration == Some(c)
      ensures Valid()
    {
      store := store[EndpointKey := c.endpoint][ApiKeyKey := c.apiKey];
      configuration := Some(c);
      isConfigured := true;
    }

    method ClearConfiguration()
      modifies this
      ensures store == old(store) - {EndpointKey, ApiKeyKey}
      ensures configuration == None
      ensures Valid()
    {
      store := store - {EndpointKey, ApiKeyKey};
      configuration := None;
      isConfigured := false;
    }
  }

  /** A saved configuration is loaded back exactly when both of its parts are non-empty. */
  lemma SaveThenLoad(store: map<string, string>, c: ApiConfiguration)
    ensures Loaded(store[EndpointKey := c.endpoint][ApiKeyKey := c.apiKey]) ==
      if c.endpoint != "" && c.apiKey != "" then Some(c) else None
  {
    var s := store[EndpointKey := c.endpoint][ApiKeyKey := c.apiKey];
    assert Read(s, EndpointKey) == c.endpoint;
  }

  /** After clearing, loading finds nothing. */
  lemma ClearThenLoad(store: map<string, string>)
    ensures Loaded(store - {EndpointKey, ApiKeyKey}) == None
  {
  }
}
