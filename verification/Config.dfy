/** The add-on's configuration record: the defaults, the persisted override
    laid over them on load, and the whitelisted update from a request. */
module Config {
  import opened Wrappers
  import opened JsonValues
  import opened Process

  type ConfigMap = map<string, Json>

  const StorageKey := "backup_storage_path"

  /** The configuration used when nothing (or nothing readable) is persisted. */
  const DefaultConfig: ConfigMap := map[
    "remote_host" := JStr(""),
    "remote_user" := JStr(""),
    "remote_port" := JNum(22),
    "remote_backup_path" := JStr("/var/lib/docker/volumes/discourse_data/_data/backups/default"),
    StorageKey := JStr("/backup/discourse"),
    "daily_retention_days" := JNum(7),
    "weekly_retention_days" := JNum(90),
    "monthly_retention_days" := JNum(730),
    "schedule" := JStr("0 3 * * *")
  ]

  /** The configuration file: absent, present but unreadable or not JSON, or a decoded document. */
  datatype StoredConfig = NoFile | Corrupt | Saved(doc: Json)

  /** The override a stored file contributes: only a JSON object can be laid over the defaults. */
  predicate HasOverride(stored: StoredConfig)
  {
    stored.Saved? && stored.doc.JObject?
  }

  /** `load_config`: the persisted object laid over the defaults; the defaults
      alone when the file is missing, unreadable, or not an object. */
  function Loaded(stored: StoredConfig): (c: ConfigMap)
    ensures DefaultConfig.Keys <= c.Keys
    ensures HasOverride(stored) ==> c.Keys == DefaultConfig.Keys + stored.doc.fields.Keys
    ensures HasOverride(stored) ==> forall k :: k in stored.doc.fields ==> c[k] == stored.doc.fields[k]
    ensures forall k :: k in DefaultConfig && !(HasOverride(stored) && k in stored.doc.fields) ==> c[k] == DefaultConfig[k]
    ensures !HasOverride(stored) ==> c == DefaultConfig
  {
    if HasOverride(stored) then DefaultConfig + stored.doc.fields else DefaultConfig
  }

  /** Saving a configuration that holds every default key and loading it back gives it unchanged. */
  lemma SaveLoadRoundTrip(c: ConfigMap)
    requires DefaultConfig.Keys <= c.Keys
    ensures Loaded(Saved(JObject(c))) == c
  {
    var l := Loaded(Saved(JObject(c)));
    assert l.Keys == c.Keys;
  }

  /** Keys outside the default set survive a load (the merge keeps them). */
  lemma UnknownKeysKept(fields: map<string, Json>, k: string)
    requires k in fields && k !in DefaultConfig
    ensures k in Loaded(Saved(JObject(fields))) && Loaded(Saved(JObject(fields)))[k] == fields[k]
  {
  }

  /** The nine keys `update_config` copies from a request, in the order it visits them. */
  const Whitelist: seq<string> := [
    "remote_host", "remote_user", "remote_port", "remote_backup_path",
    StorageKey, "daily_retention_days", "weekly_retention_days",
    "monthly_retention_days", "schedule"
  ]

  /** A whitelisted key present in the request object. */
  predicate Requested(k: string, fields: map<string, Json>)
  {
    k in Whitelist && k in fields
  }

  /** Visiting `key` raises: `key in data` is a TypeError, or it holds but `data[key]`
      indexes something that is not an object. */
  predicate KeyRaises(key: string, data: Json)
  {
    match Member(key, data)
    case None => true
    case Some(present) => present && !data.JObject?
  }

  /** Some whitelisted key makes the update loop raise. */
  predicate Rejects(data: Json)
  {
    exists i :: 0 <= i < |Whitelist| && KeyRaises(Whitelist[i], data)
  }

  /** `updated` is `config` with exactly the requested whitelisted keys replaced by the
      request's values; a request that is not an object (and does not raise) changes nothing. */
  ghost predicate IsUpdate(updated: ConfigMap, config: ConfigMap, data: Json)
  {
    if data.JObject? then
      && (forall k :: k in updated <==> k in config || Requested(k, data.fields))
      && (forall k :: Requested(k, data.fields) ==> updated[k] == data.fields[k])
      && (forall k :: k in config && !Requested(k, data.fields) ==> updated[k] == config[k])
    else
      updated == config
  }

  /** The copy loop of `update_config`: for each whitelisted key, if `key in data`
      then `config[key] = data[key]`; fails when that raises. */
  method ApplyUpdate(config: ConfigMap, data: Json) returns (r: Result<ConfigMap, Cause>)
    ensures r.Fail? <==> Rejects(data)
    ensures r.Fail? ==> r.error == TypeMismatch
    ensures r.Ok? ==> IsUpdate(r.value, config, data)
  {
    var c := config;
    var i := 0;
    while i < |Whitelist|
      invariant 0 <= i <= |Whitelist|
      invariant forall j :: 0 <= j < i ==> !KeyRaises(Whitelist[j], data)
      invariant data.JObject? ==> forall k :: k in c <==> k in config || (k in Whitelist[..i] && k in data.fields)
      invariant data.JObject? ==> forall k :: k in Whitelist[..i] && k in data.fields ==> c[k] == data.fields[k]
      invariant data.JObject? ==> forall k :: k in config && !(k in Whitelist[..i] && k in data.fields) ==> c[k] == config[k]
      invariant !data.JObject? ==> c == config
    {
      var key := Whitelist[i];
      assert Whitelist[..i + 1] == Whitelist[..i] + [key];
      var present := Member(key, data);
      if present.None? || (present.value && !data.JObject?) {
        assert KeyRaises(Whitelist[i], data);
        return Fail(TypeMismatch);
      }
      if present.value {
        c := c[key := data.fields[key]];
      }
      i := i + 1;
    }
    assert Whitelist[..i] == Whitelist;
    return Ok(c);
  }

  /** An object body never makes the update raise. */
  lemma ObjectNeverRejected(fields: map<string, Json>)
    ensures !Rejects(JObject(fields))
  {
  }

  /** `setup_ssh` writes the target it was given into the configuration. */
  function WithTarget(config: ConfigMap, host: Json, user: Json, port: Json): (c: ConfigMap)
    ensures c.Keys == config.Keys + {"remote_host", "remote_user", "remote_port"}
    ensures c["remote_host"] == host && c["remote_user"] == user && c["remote_port"] == port
    ensures forall k :: k in config && k !in {"remote_host", "remote_user", "remote_port"} ==> c[k] == config[k]
  {
    config["remote_host" := host]["remote_user" := user]["remote_port" := port]
  }
}
