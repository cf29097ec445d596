/**
 * The read-only overlay handed to the job handler (`ConfigurationMaps`): one
 * final map and two optional lookups over it.
 */
module ConfigMaps {
  import opened Wrappers
  import opened Values

  datatype ConfigurationMaps = ConfigurationMaps(config: Config)

  /**
   * `getConfig`: the very map the overlay was built from, so a caller reading
   * it sees a non-null value exactly where `get` finds one.
   */
  function GetConfig(maps: ConfigurationMaps): (r: Config)
    ensures r == maps.config
    ensures forall k :: Get(maps, k).Some? <==> k in r && r[k] != Null
  {
    maps.config
  }

  /**
   * `get`: `Optional.ofNullable(config.get(key))`. `HashMap.get` answers null
   * both for a missing key and for a key bound to null, so the two read alike.
   */
  function Get(maps: ConfigurationMaps, key: string): (r: Option<Value>)
    ensures r.Some? <==> key in maps.config && maps.config[key] != Null
    ensures r.Some? ==> r.value == maps.config[key]
  {
    var raw := if key in maps.config then maps.config[key] else Null;
    OfNullable(raw, raw == Null)
  }

  /**
   * `getString`: the textual form of the value, where an empty text counts as
   * absent.
   */
  function GetString(maps: ConfigurationMaps, key: string): (r: Option<string>)
    ensures r.None? <==> key !in maps.config || maps.config[key] in {Null, Str("")}
    ensures r.Some? ==> r.value != "" && r.value == ValueOf(maps.config[key])
    ensures r.Some? && maps.config[key].Str? ==> r.value == maps.config[key].s
  {
    match Get(maps, key)
    case None => None
    case Some(v) =>
      var text := ValueOf(v);
      ValueOfEmpty(v);
      if text == "" then None else Some(text)
  }
}
