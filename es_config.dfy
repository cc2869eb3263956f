/** The search engine's connection and index settings: the client
    configuration dictionary and the settings body of the unified index. */
module ElasticsearchConfig {
  import opened Wrappers
  import opened Json

  datatype Config = Config(
    hosts: seq<string>, username: Option<string>, password: Option<string>,
    verifyCerts: bool, useSsl: bool, caCerts: Option<string>,
    indexName: string, vectorDimensions: int, shards: int, replicas: int,
    defaultSearchSize: int, maxSearchSize: int)

  /** The settings a configuration starts from when nothing is given. */
  const Defaults: Config :=
    Config(["http://localhost:9200"], None, None, true, false, None,
           "multimodal_index", 1536, 1, 0, 10, 100)

  /** The only two fields the model validates: the search sizes. */
  predicate SizesInRange(c: Config) {
    1 <= c.defaultSearchSize <= 100 && 1 <= c.maxSearchSize <= 1000
  }

  /** Building a configuration: validation rejects a search size out of
      range and otherwise keeps every field as given. */
  function Validate(c: Config): (r: Outcome<Config>)
    ensures r.Ok? <==> SizesInRange(c)
    ensures r.Ok? ==> r.value == c
  {
    if !(1 <= c.defaultSearchSize <= 100) then Raised("default_search_size out of range [1, 100]")
    else if !(1 <= c.maxSearchSize <= 1000) then Raised("max_search_size out of range [1, 1000]")
    else Ok(c)
  }

  lemma DefaultsValid()
    ensures Validate(Defaults) == Ok(Defaults)
  {
  }

  /** Python truthiness of an optional string: present and non-empty. */
  predicate Given(s: Option<string>) {
    s.Some? && |s.value| > 0
  }

  predicate HasAuth(c: Config) {
    Given(c.username) && Given(c.password)
  }

  /** get_es_config: hosts and certificate checking always; credentials only
      when both are given, as a (username, password) pair; the SSL flag only
      when SSL is on; the CA bundle only when SSL is on and a bundle is given.
      No other key appears. */
  method GetEsConfig(c: Config) returns (config: Dict)
    ensures "hosts" in config && config["hosts"] == StrList(c.hosts)
    ensures "verify_certs" in config && config["verify_certs"] == Bool(c.verifyCerts)
    ensures ("http_auth" in config <==> HasAuth(c))
      && (HasAuth(c) ==> config["http_auth"] == Arr([Str(c.username.value), Str(c.password.value)]))
    ensures ("use_ssl" in config <==> c.useSsl) && (c.useSsl ==> config["use_ssl"] == Bool(true))
    ensures ("ca_certs" in config <==> c.useSsl && Given(c.caCerts))
      && (c.useSsl && Given(c.caCerts) ==> config["ca_certs"] == Str(c.caCerts.value))
    ensures config.Keys <= {"hosts", "verify_certs", "http_auth", "use_ssl", "ca_certs"}
  {
    config := map["hosts" := StrList(c.hosts), "verify_certs" := Bool(c.verifyCerts)];
    if Given(c.username) && Given(c.password) {
      // the pair is a tuple on the Python side; it travels as a two-element list
      config := config["http_auth" := Arr([Str(c.username.value), Str(c.password.value)])];
    }
    if c.useSsl {
      config := config["use_ssl" := Bool(true)];
      if Given(c.caCerts) {
        config := config["ca_certs" := Str(c.caCerts.value)];
      }
    }
  }

  /** get_index_settings: the shard and replica counts and the index's
      standard analyzer with English stop words. */
  function GetIndexSettings(c: Config): Dict {
    var analyzer := map["type" := Str("standard"), "stopwords" := Str("_english_")];
    var analysis := map["analyzer" := Obj(map["multimodal_analyzer" := Obj(analyzer)])];
    map["settings" := Obj(map["number_of_shards" := Int(c.shards),
                              "number_of_replicas" := Int(c.replicas),
                              "analysis" := Obj(analysis)])]
  }

  /** The settings body echoes the configured shard and replica counts. */
  lemma IndexSettingsEcho(c: Config)
    ensures var s := GetDict(GetIndexSettings(c), "settings");
      s.Some? && GetInt(s.value, "number_of_shards", 0) == Some(c.shards)
      && GetInt(s.value, "number_of_replicas", 0) == Some(c.replicas)
  {
    var s := GetDict(GetIndexSettings(c), "settings");
    assert s.Some?;
    assert "number_of_shards" in s.value && s.value["number_of_shards"] == Int(c.shards);
    assert "number_of_replicas" in s.value && s.value["number_of_replicas"] == Int(c.replicas);
  }
}
