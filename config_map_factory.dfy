/**
 * Building the overlay for one job (`ConfigurationMapFactory`): custom headers,
 * then workflow variables, then environment variables are copied into one
 * map, a later source replacing an earlier one on a shared key; then the job's
 * keys and the JSON text of the workflow variables are added.
 */
module ConfigurationMapFactory {
  import opened Wrappers
  import opened Values
  import opened ConfigMaps
  import opened Jobs
  import JsonEscape

  const JobKeyName := "jobKey"
  const ProcessInstanceKeyName := "processInstanceKey"
  const VariablesJsonName := "variablesJson"
  const VariablesJsonEscapedName := "variablesJsonEscaped"

  /** The custom headers as overlay values (they are all strings). */
  function HeaderValues(headers: map<string, string>): (m: Config)
    ensures m.Keys == headers.Keys
    ensures forall k :: k in headers ==> m[k] == Str(headers[k])
  {
    map k | k in headers :: Str(headers[k])
  }

  /** The value the three sources give a key: the latest source holding it wins. */
  function SourceValue(job: Job, environment: Config, k: string): Option<Value>
  {
    if k in environment then Some(environment[k])
    else if k in job.variables then Some(job.variables[k])
    else if k in job.customHeaders then Some(Str(job.customHeaders[k]))
    else None
  }

  /** The keys added after the sources; `json` is the serialised variables, if that succeeded. */
  function SyntheticValue(job: Job, json: Option<string>, k: string): Option<Value>
  {
    if k == JobKeyName then Some(Num(job.key))
    else if k == ProcessInstanceKeyName then Some(Num(job.processInstanceKey))
    else if json.Some? && k == VariablesJsonName then Some(Str(json.value))
    else if json.Some? && k == VariablesJsonEscapedName then Some(Str(JsonEscape.Quote(json.value)))
    else None
  }

  function SyntheticKeys(json: Option<string>): set<string>
  {
    {JobKeyName, ProcessInstanceKeyName} + (if json.Some? then {VariablesJsonName, VariablesJsonEscapedName} else {})
  }

  function Resolve(job: Job, environment: Config, json: Option<string>, k: string): Option<Value>
  {
    if SyntheticValue(job, json, k).Some? then SyntheticValue(job, json, k) else SourceValue(job, environment, k)
  }

  /**
   * The overlay, key by key. `writeJson` is Jackson's `writeValueAsString` on a
   * map (None when it throws); `environment` is what the environment-variable
   * provider returns.
   */
  function Overlay(job: Job, environment: Config, writeJson: Config -> Option<string>): Config
  {
    var json := writeJson(job.variables);
    map k | k in job.customHeaders.Keys + job.variables.Keys + environment.Keys + SyntheticKeys(json)
              && Resolve(job, environment, json, k).Some?
      :: Resolve(job, environment, json, k).value
  }

  /** `createConfigurationMap`: successive `putAll` and `put` calls on one map. */
  method CreateConfigurationMap(job: Job, environment: Config, writeJson: Config -> Option<string>)
    returns (maps: ConfigurationMaps)
    ensures maps.config == Overlay(job, environment, writeJson)
  {
    var config: Config := map[];
    config := config + HeaderValues(job.customHeaders);
    config := config + job.variables;
    config := config + environment;
    assert forall k :: k in config <==> SourceValue(job, environment, k).Some?;
    assert forall k :: k in config ==> config[k] == SourceValue(job, environment, k).value;

    config := config[JobKeyName := Num(job.key)];
    config := config[ProcessInstanceKeyName := Num(job.processInstanceKey)];

    var json := writeJson(job.variables);
    if json.Some? {
      config := config[VariablesJsonName := Str(json.value)];
      config := config[VariablesJsonEscapedName := Str(JsonEscape.Quote(json.value))];
    }
    // a failed serialisation is only logged: the map is returned without the two keys

    maps := ConfigurationMaps(config);
    PointwiseIsOverlay(config, job, environment, writeJson);
  }

  /** A map that agrees with `Resolve` on every key is the overlay. */
  lemma PointwiseIsOverlay(config: Config, job: Job, environment: Config, writeJson: Config -> Option<string>)
    requires forall k :: k in config <==> Resolve(job, environment, writeJson(job.variables), k).Some?
    requires forall k :: k in config ==> config[k] == Resolve(job, environment, writeJson(job.variables), k).value
    ensures config == Overlay(job, environment, writeJson)
  {
  }

  // ---------------------------------------------------------------------------
  // What the overlay promises

  /** The key set is exactly the sources' keys plus the synthetic ones; nothing else is added. */
  lemma OverlayKeys(job: Job, environment: Config, writeJson: Config -> Option<string>)
    ensures Overlay(job, environment, writeJson).Keys
         == job.customHeaders.Keys + job.variables.Keys + environment.Keys + SyntheticKeys(writeJson(job.variables))
  {
  }

  /**
   * Precedence: on a key that is not synthetic, the environment beats the
   * workflow variables, which beat the custom headers.
   */
  lemma Precedence(job: Job, environment: Config, writeJson: Config -> Option<string>, k: string)
    requires k !in SyntheticKeys(writeJson(job.variables))
    ensures var overlay := Overlay(job, environment, writeJson);
      && (k in environment ==> k in overlay && overlay[k] == environment[k])
      && (k !in environment && k in job.variables ==> k in overlay && overlay[k] == job.variables[k])
      && (k !in environment && k !in job.variables && k in job.customHeaders ==>
            k in overlay && overlay[k] == Str(job.customHeaders[k]))
      && (k !in environment && k !in job.variables && k !in job.customHeaders ==> k !in overlay)
  {
  }

  /**
   * A null in a later source hides a value of an earlier one: the key then
   * reads as absent through `get`.
   */
  lemma LaterNullHidesValue(job: Job, environment: Config, writeJson: Config -> Option<string>, k: string)
    requires k !in SyntheticKeys(writeJson(job.variables))
    requires (k in environment && environment[k] == Null)
          || (k !in environment && k in job.variables && job.variables[k] == Null)
    ensures Get(ConfigurationMaps(Overlay(job, environment, writeJson)), k).None?
  {
  }

  /** `jobKey` and `processInstanceKey` are the job's own, whatever the sources hold. */
  lemma JobKeysWin(job: Job, environment: Config, writeJson: Config -> Option<string>)
    ensures var overlay := Overlay(job, environment, writeJson);
      && JobKeyName in overlay && overlay[JobKeyName] == Num(job.key)
      && ProcessInstanceKeyName in overlay && overlay[ProcessInstanceKeyName] == Num(job.processInstanceKey)
  {
  }

  /**
   * `variablesJson` is the serialised workflow variables alone, and
   * `variablesJsonEscaped` decodes back to it (section 7 of RFC 8259).
   */
  lemma VariablesJson(job: Job, environment: Config, writeJson: Config -> Option<string>)
    requires writeJson(job.variables).Some?
    ensures var overlay := Overlay(job, environment, writeJson);
      && VariablesJsonName in overlay && overlay[VariablesJsonName] == Str(writeJson(job.variables).value)
      && VariablesJsonEscapedName in overlay && overlay[VariablesJsonEscapedName].Str?
      && JsonEscape.Unquote(overlay[VariablesJsonEscapedName].s) == Some(writeJson(job.variables).value)
  {
    JsonEscape.QuoteRoundTrip(writeJson(job.variables).value);
  }

  /** Headers and environment do not reach `variablesJson`: only the variables do. */
  lemma VariablesJsonIgnoresOtherSources(job: Job, environment: Config, other: Job, otherEnvironment: Config,
                                         writeJson: Config -> Option<string>)
    requires other.variables == job.variables
    requires writeJson(job.variables).Some?
    ensures var a := Overlay(job, environment, writeJson);
            var b := Overlay(other, otherEnvironment, writeJson);
      && (VariablesJsonName in a <==> VariablesJsonName in b)
      && (VariablesJsonName in a ==> a[VariablesJsonName] == b[VariablesJsonName])
  {
  }

  /**
   * When the variables cannot be serialised, neither JSON key is written, so a
   * source's value under either name survives.
   */
  lemma FailedSerialisationKeepsSources(job: Job, environment: Config, writeJson: Config -> Option<string>, k: string)
    requires writeJson(job.variables).None?
    requires k == VariablesJsonName || k == VariablesJsonEscapedName
    ensures var overlay := Overlay(job, environment, writeJson);
      && (k in overlay <==> SourceValue(job, environment, k).Some?)
      && (k in overlay ==> overlay[k] == SourceValue(job, environment, k).value)
  {
  }
}
