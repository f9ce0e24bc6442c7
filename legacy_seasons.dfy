/** The season stage gate of the legacy league: seasons are created
    NOT_STARTED, the group stage is generated once, the knockout starts when
    every group-stage fixture has its result, and knockout rounds follow
    one another.  A single "active_season" setting names the current season.

    The season table is a sequence of rows in table order; each handler looks
    its season up by id, checks the stage, calls the fixture engine and only
    then writes the new stage. */
module LegacySeasons {
  import opened Common
  import opened LegacyFixtures
  import opened LegacyResults

  /** `SeasonState`: NOT_STARTED = 1, GROUP_STAGE = 2, KNOCKOUT_STAGE = 3,
      FINISHED = 4. */
  datatype SeasonState = NotStarted | GroupStage | KnockoutStage | Finished

  /** The number the enum gives each stage. */
  function StageNumber(s: SeasonState): nat
  {
    match s
    case NotStarted => 1
    case GroupStage => 2
    case KnockoutStage => 3
    case Finished => 4
  }

  datatype LegacySeason = LegacySeason(id: Id, name: string, state: SeasonState, createdAt: Time)

  /** Why a handler refused: the HTTP errors of the season routes, the
      missing season the stage handlers do not guard against, and the
      fixture engine's failures. */
  datatype SeasonRouteError =
    | NameTaken
    | SeasonNameNotFound
    | NoSuchSeason
    | AlreadyStarted
    | NotInGroupStage
    | GroupStageUnfinished
    | NotInKnockoutStage
    | GenerationFailed
    | NoKnockoutRound
    | KnockoutUndecided

  /** The place of the season with id `id`, if any. */
  function SeasonIndex(rows: seq<LegacySeason>, id: Id): (r: Option<nat>)
    ensures r.Some? <==> exists i :: 0 <= i < |rows| && rows[i].id == id
    ensures r.Some? ==> r.value < |rows| && rows[r.value].id == id && forall i :: 0 <= i < r.value ==> rows[i].id != id
  {
    if rows == [] then None
    else if rows[0].id == id then Some(0)
    else match SeasonIndex(rows[1..], id)
      case None => None
      case Some(i) => Some(i + 1)
  }

  /** `get_season_by_name`: the first season of that name. */
  function SeasonNamed(rows: seq<LegacySeason>, name: string): (r: Option<LegacySeason>)
    ensures r.Some? <==> exists i :: 0 <= i < |rows| && rows[i].name == name
    ensures r.Some? ==> r.value in rows && r.value.name == name
  {
    if rows == [] then None
    else if rows[0].name == name then Some(rows[0])
    else SeasonNamed(rows[1..], name)
  }

  /** `get_active_season`: the season named by the setting, or nothing
      when no setting exists (or no season has that name). */
  function ActiveSeason(rows: seq<LegacySeason>, setting: Option<string>): (r: Option<LegacySeason>)
    ensures setting.None? ==> r.None?
    ensures r.Some? ==> r.value in rows && r.value.name == setting.value
    ensures setting.Some? && (exists i :: 0 <= i < |rows| && rows[i].name == setting.value) ==> r.Some?
  {
    if setting.None? then None else SeasonNamed(rows, setting.value)
  }

  /** `group_stage_played_for_season`: the results of group-stage fixtures
      are as many as the group-stage fixtures. A fixture has at most one
      result (the fixture id is the key of the results table), so the
      results counted are those of the fixtures that have one. */
  function GroupStagePlayed(groupFixtures: seq<Id>, resulted: set<Id>): (r: bool)
    ensures r <==> forall i :: 0 <= i < |groupFixtures| ==> groupFixtures[i] in resulted
  {
    CountIf(groupFixtures, (f: Id) => f in resulted) == |groupFixtures|
  }

  /** The stage never goes back: the rows are the same seasons, each at the
      same or a later stage. */
  predicate Forward(before: seq<LegacySeason>, after: seq<LegacySeason>)
  {
    && |before| <= |after|
    && forall i :: 0 <= i < |before| ==>
         after[i].(state := before[i].state) == before[i] && StageNumber(before[i].state) <= StageNumber(after[i].state)
  }

  /** No handler writes FINISHED: a FINISHED season was FINISHED before. */
  predicate NeverFinishes(before: seq<LegacySeason>, after: seq<LegacySeason>)
  {
    forall i :: 0 <= i < |after| && after[i].state == Finished ==> i < |before| && before[i].state == Finished
  }

  /** The seasons table and the settings table of the legacy league. */
  class League {
    var rows: seq<LegacySeason>
    /** The value of the "active_season" settings row, if the row exists. */
    var activeSetting: Option<string>

    constructor ()
      ensures rows == [] && activeSetting.None?
    {
      rows := [];
      activeSetting := None;
    }

    /** `create_new_season`: the route refuses a name already in use (403);
        otherwise the service adds a NOT_STARTED season. `id` is the fresh
        key the database generates. */
    method CreateNewSeason(id: Id, name: string, now: Time) returns (r: Result<LegacySeason, SeasonRouteError>)
      requires forall i :: 0 <= i < |rows| ==> rows[i].id != id
      modifies this`rows
      ensures SeasonNamed(old(rows), name).Some? ==> r == Err(NameTaken) && rows == old(rows)
      ensures SeasonNamed(old(rows), name).None? ==>
        r == Ok(LegacySeason(id, name, NotStarted, now)) && rows == old(rows) + [r.value]
      ensures Forward(old(rows), rows) && NeverFinishes(old(rows), rows)
    {
      if SeasonNamed(rows, name).Some? {
        return Err(NameTaken);
      }
      var season := LegacySeason(id, name, NotStarted, now);
      rows := rows + [season];
      return Ok(season);
    }

    /** `set_active_season`: an unknown name is refused (404); otherwise the
        single "active_season" setting is created or updated to the name,
        so that the active season becomes that season. */
    method SetActiveSeason(name: string) returns (r: Result<string, SeasonRouteError>)
      modifies this`activeSetting
      ensures SeasonNamed(rows, name).None? ==> r == Err(SeasonNameNotFound) && activeSetting == old(activeSetting)
      ensures SeasonNamed(rows, name).Some? ==> r == Ok(name) && activeSetting == Some(name)
      ensures r.Ok? ==> ActiveSeason(rows, activeSetting) == SeasonNamed(rows, name)
    {
      var season := SeasonNamed(rows, name);
      if season.None? {
        return Err(SeasonNameNotFound);
      }
      activeSetting := Some(season.value.name);
      return Ok(name);
    }

    /** The `generate_group_stage` handler: only a NOT_STARTED season gets
        a group stage; a generation failure leaves it NOT_STARTED, and
        otherwise it moves to GROUP_STAGE. `teamIds` are the teams whose
        rosters qualify, in query order. */
    method GenerateGroupStage(id: Id, teamIds: seq<Id>, start: Time) returns (r: Result<seq<ScheduledRound>, SeasonRouteError>)
      modifies this`rows
      ensures SeasonIndex(old(rows), id).None? ==> r == Err(NoSuchSeason) && rows == old(rows)
      ensures SeasonIndex(old(rows), id).Some? && old(rows)[SeasonIndex(old(rows), id).value].state != NotStarted ==>
        r == Err(AlreadyStarted) && rows == old(rows)
      ensures SeasonIndex(old(rows), id).Some? && old(rows)[SeasonIndex(old(rows), id).value].state == NotStarted ==>
        if |teamIds| < 2 then r == Err(GenerationFailed) && rows == old(rows)
        else
          && r == Ok(Schedule(GenerationStrategies.WithBye(teamIds), id, start, Some(RoundType.GroupStage)))
          && rows == old(rows)[SeasonIndex(old(rows), id).value := old(rows)[SeasonIndex(old(rows), id).value].(state := SeasonState.GroupStage)]
      ensures Forward(old(rows), rows) && NeverFinishes(old(rows), rows)
    {
      var i := SeasonIndex(rows, id);
      if i.None? {
        return Err(NoSuchSeason);
      }
      if rows[i.value].state != NotStarted {
        return Err(AlreadyStarted);
      }
      var rounds := CreateRoundRobin(teamIds, id, start);
      if rounds.Err? {
        return Err(GenerationFailed);
      }
      rows := rows[i.value := rows[i.value].(state := SeasonState.GroupStage)];
      return Ok(rounds.value);
    }

    /** The `start_knockout_tournament` handler: the season must be in
        GROUP_STAGE with every group-stage fixture resulted; the group-stage
        ranking then seeds knockout round 1 and the season moves to
        KNOCKOUT_STAGE. */
    method StartKnockout(id: Id, groupFixtures: seq<Id>, resulted: set<Id>, results: seq<ScoredResult>, now: Time)
      returns (r: Result<(SeasonRound, seq<SeasonFixture>), SeasonRouteError>)
      modifies this`rows
      ensures SeasonIndex(old(rows), id).None? ==> r == Err(NoSuchSeason) && rows == old(rows)
      ensures SeasonIndex(old(rows), id).Some? && old(rows)[SeasonIndex(old(rows), id).value].state != SeasonState.GroupStage ==>
        r == Err(NotInGroupStage) && rows == old(rows)
      ensures SeasonIndex(old(rows), id).Some? && old(rows)[SeasonIndex(old(rows), id).value].state == SeasonState.GroupStage ==>
        if !GroupStagePlayed(groupFixtures, resulted) then r == Err(GroupStageUnfinished) && rows == old(rows)
        else
          && r == Ok((SeasonRound(id, 1, Some(Knockout)), FirstKnockoutDraw(results, id, now)))
          && rows == old(rows)[SeasonIndex(old(rows), id).value := old(rows)[SeasonIndex(old(rows), id).value].(state := KnockoutStage)]
      ensures Forward(old(rows), rows) && NeverFinishes(old(rows), rows)
    {
      var i := SeasonIndex(rows, id);
      if i.None? {
        return Err(NoSuchSeason);
      }
      if rows[i.value].state != SeasonState.GroupStage {
        return Err(NotInGroupStage);
      }
      if !GroupStagePlayed(groupFixtures, resulted) {
        return Err(GroupStageUnfinished);
      }
      var round, fixtures := InitiateKnockout(results, id, now);
      rows := rows[i.value := rows[i.value].(state := KnockoutStage)];
      return Ok((round, fixtures));
    }

    /** The `create_next_round` handler: the season must be in
        KNOCKOUT_STAGE and have a knockout round; the winners of its last
        round are drawn into the next one, or nothing is drawn when one
        team is left. The season's stage never changes here. */
    method CreateNextRound(id: Id, lastKnockoutRound: Option<int>, previous: seq<Game>, now: Time)
      returns (r: Result<Option<(SeasonRound, seq<SeasonFixture>)>, SeasonRouteError>)
      ensures SeasonIndex(rows, id).None? ==> r == Err(NoSuchSeason)
      ensures SeasonIndex(rows, id).Some? && rows[SeasonIndex(rows, id).value].state != KnockoutStage ==> r == Err(NotInKnockoutStage)
      ensures SeasonIndex(rows, id).Some? && rows[SeasonIndex(rows, id).value].state == KnockoutStage ==>
        if lastKnockoutRound.None? then r == Err(NoKnockoutRound)
        else if Winners(previous).Err? then r == Err(KnockoutUndecided)
        else if |Winners(previous).value| == 1 then r == Ok(None)
        else r == Ok(Some((SeasonRound(id, lastKnockoutRound.value + 1, Some(Knockout)), Draw(Winners(previous).value, id, now))))
    {
      var i := SeasonIndex(rows, id);
      if i.None? {
        return Err(NoSuchSeason);
      }
      if rows[i.value].state != KnockoutStage {
        return Err(NotInKnockoutStage);
      }
      if lastKnockoutRound.None? {
        return Err(NoKnockoutRound);
      }
      var next := ScheduleKnockoutRound(previous, id, lastKnockoutRound.value, now);
      if next.Err? {
        return Err(KnockoutUndecided);
      }
      return Ok(next.value);
    }
  }
}
