/**
 * The step's configuration keys, their defaults and the keys the step requires
 * (the DEFAULT_CONFIG and REQUIRED_CONFIG_KEYS constants of the Maven unit-test
 * step implementer).
 */
module MavenConfig {

  /**
   * A configuration value as the step receives it. Step configuration comes
   * from YAML files or the command line, so any scalar may stand under a key:
   * the flag `fail-on-no-tests` is not guaranteed to be a boolean.
   */
  datatype Value = Null | Bool(b: bool) | Int(i: int) | Str(s: string)

  const FailOnNoTestsKey := "fail-on-no-tests"
  const PomFileKey := "pom-file"

  /** The lowest-precedence configuration values of the step. */
  const DefaultConfig: map<string, Value> :=
    map[FailOnNoTestsKey := Bool(true), PomFileKey := Str("pom.xml")]

  /** Keys that must be present (and not null) before the step runs. */
  const RequiredConfigKeys: seq<string> := [FailOnNoTestsKey, PomFileKey]

  /**
   * What running the step relies on: both keys are present (the framework
   * validates required keys before running a step) and the pom path is text.
   */
  predicate Runnable(config: map<string, Value>)
  {
    FailOnNoTestsKey in config && PomFileKey in config && config[PomFileKey].Str?
  }

  /**
   * Python's `value is True`: only the boolean `True` itself. The string
   * "true", the integer 1 and null are all different objects.
   */
  predicate IsTrue(v: Value)
  {
    v == Bool(true)
  }

  /**
   * Every required key has a non-null default, so a merged configuration that
   * starts from the defaults holds every required key whatever overrides
   * are layered on top of it, and is non-null there unless an override
   * explicitly sets null. With no overrides the step can run.
   */
  lemma RequiredKeysHaveDefaults(overrides: map<string, Value>)
    ensures forall k :: k in RequiredConfigKeys ==> k in DefaultConfig && DefaultConfig[k] != Null
    ensures forall k :: k in RequiredConfigKeys ==> k in DefaultConfig + overrides
    ensures forall k :: k in RequiredConfigKeys && (k !in overrides || overrides[k] != Null) ==>
              (DefaultConfig + overrides)[k] != Null
    ensures Runnable(DefaultConfig)
    ensures IsTrue(DefaultConfig[FailOnNoTestsKey])
  {
  }
}
