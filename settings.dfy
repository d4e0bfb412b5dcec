/**
 * The three configurable properties of the `s-swipe` component, their defaults
 * and the watchers that reject an `undefined` or `null` new value.
 */
module Settings {
  import opened Wrappers

  /** The component's properties: minimum duration (ms) and minimum distance per axis. */
  datatype Config = Config(timeThreshold: int, thresholdX: int, thresholdY: int)

  /** The values the properties have until the host sets them. */
  const Default := Config(timeThreshold := 100, thresholdX := 30, thresholdY := 30)

  /** Names one of the three properties. */
  datatype Setting = TimeThreshold | ThresholdX | ThresholdY

  /** The error a watcher throws, with the watcher's own message. */
  datatype ConfigError = InvalidConfiguration(message: string)

  function Message(setting: Setting): string {
    match setting
    case TimeThreshold => "Invalid time threshold"
    case ThresholdX => "Invalid threshold X"
    case ThresholdY => "Invalid threshold Y"
  }

  /** The current value of one property. */
  function Get(c: Config, setting: Setting): int {
    match setting
    case TimeThreshold => c.timeThreshold
    case ThresholdX => c.thresholdX
    case ThresholdY => c.thresholdY
  }

  /**
   * The watcher of `setting`: a missing value is rejected with that property's
   * message; every number, zero and negative ones included, is accepted.
   */
  function Validate(setting: Setting, newValue: Option<int>): (r: Result<int, ConfigError>)
    ensures r.Failure? <==> newValue.None?
    ensures r.Success? ==> r.value == newValue.value
    ensures r.Failure? ==> r.error.message == Message(setting)
  {
    match newValue
    case None => Failure(InvalidConfiguration(Message(setting)))
    case Some(v) => Success(v)
  }

  /** Assigning a property: either the watcher fails, or exactly that property changes. */
  function Set(c: Config, setting: Setting, newValue: Option<int>): (r: Result<Config, ConfigError>)
    ensures r.Failure? <==> newValue.None?
    ensures r.Failure? ==> r.error == InvalidConfiguration(Message(setting))
    ensures r.Success? ==> Get(r.value, setting) == newValue.value
    ensures r.Success? ==> forall other :: other != setting ==> Get(r.value, other) == Get(c, other)
  {
    match Validate(setting, newValue)
    case Failure(e) => Failure(e)
    case Success(v) =>
      Success(match setting
              case TimeThreshold => c.(timeThreshold := v)
              case ThresholdX => c.(thresholdX := v)
              case ThresholdY => c.(thresholdY := v))
  }

  /** Properties are independent: setting two different ones in either order gives the same configuration. */
  lemma SetCommutes(c: Config, s1: Setting, v1: int, s2: Setting, v2: int)
    requires s1 != s2
    ensures Set(Set(c, s1, Some(v1)).value, s2, Some(v2))
         == Set(Set(c, s2, Some(v2)).value, s1, Some(v1))
  {
  }

  /** Setting a property to the value it already has leaves the configuration as it was. */
  lemma SetCurrentValueIsIdentity(c: Config, setting: Setting)
    ensures Set(c, setting, Some(Get(c, setting))) == Success(c)
  {
  }
}
