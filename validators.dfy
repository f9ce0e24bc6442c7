/** `TournamentValidator`: the static checks run before a tournament structure
    is generated. Each check either passes or reports the first failing
    condition in the order the checks are written; `Fail` stands for the
    `ValidationError` it raises. */
module TournamentValidator {
  import opened Common
  import opened CompetitionData

  datatype ValidationError =
    | MissingFormatConfig
    | MissingConfigFields
    | BadTeamsPerGroup
    | BadMatchFormat
    | BadSeedingType
    | StartsInPast
    | EndNotAfterStart
    | RegistrationNotBeforeStart
    | LateRegistrationEndMissing
    | LateRegistrationNotBeforeStart
    | NotEnoughTeams
    | TooManyTeams
    | RosterTooSmall(index: nat)
    | FirstRoundTooEarly
    | LastRoundTooLate
    | RoundsOverlap(index: nat)

  const RegularFormats: set<string> := {"bo1", "bo2", "bo3", "bo5"}
  const KnockoutFormats: set<string> := {"bo1", "bo3", "bo5"}
  const SeedingTypes: set<string> := {"random", "group_position", "elo"}

  /** A configuration value that is a string from `allowed`. */
  predicate StrIn(v: ConfigValue, allowed: set<string>)
  {
    v.StrValue? && v.s in allowed
  }

  function ValidateRegularConfig(config: map<string, ConfigValue>): (r: Outcome<ValidationError>)
    ensures r.Pass? <==>
      && "teams_per_group" in config && "match_format" in config
      && config["teams_per_group"].IntValue? && config["teams_per_group"].n >= 2
      && StrIn(config["match_format"], RegularFormats)
    ensures r == Fail(MissingConfigFields) <==> !("teams_per_group" in config && "match_format" in config)
  {
    if !("teams_per_group" in config && "match_format" in config) then Fail(MissingConfigFields)
    else if !(config["teams_per_group"].IntValue? && config["teams_per_group"].n >= 2) then Fail(BadTeamsPerGroup)
    else if !StrIn(config["match_format"], RegularFormats) then Fail(BadMatchFormat)
    else Pass
  }

  function ValidateKnockoutConfig(config: map<string, ConfigValue>): (r: Outcome<ValidationError>)
    ensures r.Pass? <==>
      && "seeding_type" in config && "match_format" in config
      && StrIn(config["seeding_type"], SeedingTypes)
      && StrIn(config["match_format"], KnockoutFormats)
    ensures r == Fail(MissingConfigFields) <==> !("seeding_type" in config && "match_format" in config)
  {
    if !("seeding_type" in config && "match_format" in config) then Fail(MissingConfigFields)
    else if !StrIn(config["seeding_type"], SeedingTypes) then Fail(BadSeedingType)
    else if !StrIn(config["match_format"], KnockoutFormats) then Fail(BadMatchFormat)
    else Pass
  }

  /** `validate_tournament_config`: an empty configuration is refused; regular
      and knockout tournaments have their configuration checked; any other
      type passes. */
  function ValidateTournamentConfig(t: Tournament): (r: Outcome<ValidationError>)
    ensures t.formatConfig == map[] ==> r == Fail(MissingFormatConfig)
    ensures t.formatConfig != map[] && t.ttype == Regular ==> r == ValidateRegularConfig(t.formatConfig)
    ensures t.formatConfig != map[] && t.ttype == Knockout ==> r == ValidateKnockoutConfig(t.formatConfig)
    ensures t.formatConfig != map[] && t.ttype == Pug ==> r == Pass
  {
    if t.formatConfig == map[] then Fail(MissingFormatConfig)
    else match t.ttype
      case Regular => ValidateRegularConfig(t.formatConfig)
      case Knockout => ValidateKnockoutConfig(t.formatConfig)
      case Pug => Pass
  }

  /** `bo2` is a valid regular format but not a valid knockout format. */
  lemma BestOfTwoOnlyForRegular(config: map<string, ConfigValue>)
    requires "match_format" in config && config["match_format"] == StrValue("bo2")
    requires "teams_per_group" in config && config["teams_per_group"] == IntValue(2)
    requires "seeding_type" in config && config["seeding_type"] == StrValue("elo")
    ensures ValidateRegularConfig(config).Pass?
    ensures ValidateKnockoutConfig(config) == Fail(BadMatchFormat)
  {
  }

  /** `validate_tournament_dates` at time `now`. */
  function ValidateTournamentDates(t: Tournament, now: Time): (r: Outcome<ValidationError>)
    ensures r.Pass? <==>
      && t.scheduledStart >= now
      && t.scheduledEnd > t.scheduledStart
      && t.registrationEnd < t.scheduledStart
      && (t.allowLateRegistration ==>
            t.lateRegistrationEnd.Some? && t.lateRegistrationEnd.value < t.scheduledStart)
  {
    if t.scheduledStart < now then Fail(StartsInPast)
    else if t.scheduledEnd <= t.scheduledStart then Fail(EndNotAfterStart)
    else if t.registrationEnd >= t.scheduledStart then Fail(RegistrationNotBeforeStart)
    else if t.allowLateRegistration && t.lateRegistrationEnd.None? then Fail(LateRegistrationEndMissing)
    else if t.allowLateRegistration && t.lateRegistrationEnd.value >= t.scheduledStart then Fail(LateRegistrationNotBeforeStart)
    else Pass
  }

  /** The first index from `from` on whose roster count is below `minSize`. */
  function FirstSmallRoster(rosterCounts: seq<nat>, minSize: int, from: nat): (r: Option<nat>)
    requires from <= |rosterCounts|
    decreases |rosterCounts| - from
    ensures r.None? <==> forall i :: from <= i < |rosterCounts| ==> rosterCounts[i] >= minSize
    ensures r.Some? ==>
              && from <= r.value < |rosterCounts| && rosterCounts[r.value] < minSize
              && forall i :: from <= i < r.value ==> rosterCounts[i] >= minSize
  {
    if from == |rosterCounts| then None
    else if rosterCounts[from] < minSize then Some(from)
    else FirstSmallRoster(rosterCounts, minSize, from + 1)
  }

  /** `validate_teams`: `rosterCounts[i]` is `len(team.rosters)` of the i-th
      registered team. */
  function ValidateTeams(rosterCounts: seq<nat>, t: Tournament): (r: Outcome<ValidationError>)
    ensures r.Pass? <==>
      && t.minTeams <= |rosterCounts| <= t.maxTeams
      && forall i :: 0 <= i < |rosterCounts| ==> rosterCounts[i] >= t.minTeamSize
    ensures r.Fail? && r.error.RosterTooSmall? ==>
      r.error.index < |rosterCounts| && rosterCounts[r.error.index] < t.minTeamSize
  {
    if |rosterCounts| < t.minTeams then Fail(NotEnoughTeams)
    else if |rosterCounts| > t.maxTeams then Fail(TooManyTeams)
    else match FirstSmallRoster(rosterCounts, t.minTeamSize, 0)
      case None => Pass
      case Some(i) => Fail(RosterTooSmall(i))
  }

  /** The first i from `from` on with `rounds[i].end_date > rounds[i + 1].start_date`. */
  function FirstOverlap(rounds: seq<Round>, from: nat): (r: Option<nat>)
    requires from <= |rounds|
    decreases |rounds| - from
    ensures r.None? <==> forall i :: from <= i < |rounds| - 1 ==> rounds[i].endDate <= rounds[i + 1].startDate
    ensures r.Some? ==> from <= r.value < |rounds| - 1 && rounds[r.value].endDate > rounds[r.value + 1].startDate
  {
    if from + 1 >= |rounds| then None
    else if rounds[from].endDate > rounds[from + 1].startDate then Some(from)
    else FirstOverlap(rounds, from + 1)
  }

  /** `validate_round_dates`: the rounds lie inside the tournament's schedule
      and each round ends no later than the next one starts. */
  function ValidateRoundDates(rounds: seq<Round>, t: Tournament): (r: Outcome<ValidationError>)
    ensures r.Pass? <==>
      || rounds == []
      || (&& rounds[0].startDate >= t.scheduledStart
          && rounds[|rounds| - 1].endDate <= t.scheduledEnd
          && forall i :: 0 <= i < |rounds| - 1 ==> rounds[i].endDate <= rounds[i + 1].startDate)
  {
    if rounds == [] then Pass
    else if rounds[0].startDate < t.scheduledStart then Fail(FirstRoundTooEarly)
    else if rounds[|rounds| - 1].endDate > t.scheduledEnd then Fail(LastRoundTooLate)
    else match FirstOverlap(rounds, 0)
      case None => Pass
      case Some(i) => Fail(RoundsOverlap(i))
  }

  /** Rounds that pass the continuity check are ordered in time: every round
      starts no later than any later round ends. */
  lemma {:induction false} ContinuousRoundsAreOrdered(rounds: seq<Round>, i: nat, j: nat)
    requires forall k :: 0 <= k < |rounds| - 1 ==> rounds[k].endDate <= rounds[k + 1].startDate
    requires forall k :: 0 <= k < |rounds| ==> rounds[k].startDate <= rounds[k].endDate
    requires i < j < |rounds|
    ensures rounds[i].endDate <= rounds[j].startDate
    decreases j - i
  {
    if j > i + 1 {
      ContinuousRoundsAreOrdered(rounds, i + 1, j);
    }
  }
}
