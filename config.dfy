/** The scoring configuration (module/config.py), passed to the scoring engine as an immutable
    record. Every key the engine reads is optional: `None` stands for a key the dictionary does
    not hold, and reading it with `config[...]` raises `KeyError`. */
module Config {
  import opened Wrappers
  import opened Sections

  /** `config["gap_weights"]`; the break times are given already parsed. */
  datatype GapWeights = GapWeights(
    mandatoryBreakStart: Option<Time>,
    mandatoryBreakEnd: Option<Time>,
    maxAllowedGap: Option<int>,
    penaltyPerHour: Option<int>)

  /** `config["weights"]`. */
  datatype Weights = Weights(
    days: Option<real>,
    gaps: Option<real>,
    modality: Option<real>,
    sectionsPerDay: Option<real>,
    consistencyStartTime: Option<real>,
    consistencyEndTime: Option<real>)

  /** `day_weights` maps an excess number of days to its penalty; it is kept as the list of its
      entries in insertion order, which is the order in which Python yields its values. */
  datatype Config = Config(
    preferredMaxSectionsPerDay: Option<int>,
    modalityPreferences: Option<map<string, string>>,
    dayWeights: Option<seq<(int, int)>>,
    preferredNumDays: Option<int>,
    gapWeights: Option<GapWeights>,
    consistencyPenaltyWeight: Option<real>,
    weights: Option<Weights>)

  /** `str(KeyError(key))`. */
  function KeyError(key: string): (msg: string)
    ensures |msg| == |key| + 2 && msg[0] == '\'' && msg[|msg| - 1] == '\''
  {
    "'" + key + "'"
  }

  /** The configuration as shipped: it has no `modality_preferences` and no `day_weights`, and
      its gap settings name the rate `penalty_per_gap_hour` rather than `penalty_per_hour`. */
  const Shipped := Config(
    preferredMaxSectionsPerDay := Some(3),
    modalityPreferences := None,
    dayWeights := None,
    preferredNumDays := Some(3),
    gapWeights := Some(GapWeights(Some(HM(12, 15)), Some(HM(13, 30)), Some(20), None)),
    consistencyPenaltyWeight := Some(1.0),
    weights := Some(Weights(Some(1.0), Some(1.0), Some(10.0), Some(1.0), Some(0.5), Some(0.5))))
}
