/** config.py: the module-level configuration dictionary and its right-biased merges. */
module Config {
  import opened Wrappers
  import opened Py

  type ConfigMap = map<string, PyObj>

  /** append_config_values: `config | additional`, so the incoming values win. */
  function AppendConfigValues(config: ConfigMap, additional: ConfigMap): (r: ConfigMap)
    ensures r.Keys == config.Keys + additional.Keys
    ensures forall k :: k in additional ==> r[k] == additional[k]
    ensures forall k :: k in config && k !in additional ==> r[k] == config[k]
  {
    config + additional
  }

  /** parse_config_from_stream, given what json.load made of the stream: None when it raised
      JSONDecodeError, which becomes a ConfigError with the configuration unchanged. A document
      that is not an object cannot be merged into a dict and is a TypeError. */
  function ParseConfigFromStream(config: ConfigMap, decoded: Option<PyObj>): (r: Result<ConfigMap, Exc>)
    ensures decoded.None? ==> r == Err(ConfigError)
    ensures decoded.Some? && decoded.value.Dict? ==> r == Ok(AppendConfigValues(config, decoded.value.entries))
    ensures r.Err? ==> r.error == ConfigError || r.error == TypeError
  {
    match decoded
    case None => Err(ConfigError)
    case Some(Dict(values)) => Ok(AppendConfigValues(config, values))
    case Some(_) => Err(TypeError)
  }

  /** get_config_value_or_fail: a name that is not configured is a ConfigError. */
  function GetConfigValueOrFail(config: ConfigMap, name: string): (r: Result<PyObj, Exc>)
    ensures r.Ok? <==> name in config
    ensures r.Ok? ==> r.value == config[name]
    ensures r.Err? ==> r.error == ConfigError
  {
    if name !in config then Err(ConfigError) else Ok(config[name])
  }

  /** get_config_value_or_default: a name that is not configured gives the default. */
  function GetConfigValueOrDefault(config: ConfigMap, name: string, default: PyObj): (r: PyObj)
    ensures name in config ==> r == config[name]
    ensures name !in config ==> r == default
  {
    if name !in config then default else config[name]
  }

  /** Reading back after a merge: the incoming value if there was one, the old one otherwise;
      merging the same values twice is the same as merging them once. */
  lemma MergeThenRead(config: ConfigMap, additional: ConfigMap, name: string, default: PyObj)
    ensures GetConfigValueOrDefault(AppendConfigValues(config, additional), name, default)
         == if name in additional then additional[name] else GetConfigValueOrDefault(config, name, default)
    ensures AppendConfigValues(AppendConfigValues(config, additional), additional) == AppendConfigValues(config, additional)
  {
  }
}
