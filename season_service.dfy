/** `SeasonService` of the competitions package: creating seasons, moving
    them through NOT_STARTED → IN_PROGRESS ⇄ COMPLETED, and looking them up.

    The seasons table is a sequence of rows in table order; "the first row"
    of a query is the first in that order.  Each guard is checked before
    anything is written, so a call refused by a guard leaves the table as
    it was. */
module SeasonService {
  import opened Common
  import opened StableSort

  datatype SeasonState = NotStarted | InProgress | Completed

  datatype Season = Season(id: Id, name: string, state: SeasonState, createdAt: Time)

  /** `ValueError` (duplicate name, missing season) and `SeasonStateError`. */
  datatype SeasonError = DuplicateName | SeasonNotFound | WrongState

  /** The place of the season with id `id` in the table, if any. */
  function IndexOf(rows: seq<Season>, id: Id): (r: Option<nat>)
    ensures r.Some? <==> exists i :: 0 <= i < |rows| && rows[i].id == id
    ensures r.Some? ==> r.value < |rows| && rows[r.value].id == id && forall i :: 0 <= i < r.value ==> rows[i].id != id
  {
    if rows == [] then None
    else if rows[0].id == id then Some(0)
    else match IndexOf(rows[1..], id)
      case None => None
      case Some(i) => Some(i + 1)
  }

  /** Ids and names are unique in the table. */
  predicate Unique(rows: seq<Season>)
  {
    forall i, j :: 0 <= i < j < |rows| ==> rows[i].id != rows[j].id && rows[i].name != rows[j].name
  }

  /** `get_active_season`: the first IN_PROGRESS season. */
  function ActiveSeason(rows: seq<Season>): (r: Option<Season>)
    ensures r.None? <==> forall i :: 0 <= i < |rows| ==> rows[i].state != InProgress
    ensures r.Some? ==> r.value.state == InProgress && r.value in rows
  {
    if rows == [] then None
    else if rows[0].state == InProgress then Some(rows[0])
    else ActiveSeason(rows[1..])
  }

  /** The active season is the first IN_PROGRESS row: every row before it
      is in another state. */
  lemma {:induction false} ActiveSeasonIsFirst(rows: seq<Season>)
    requires ActiveSeason(rows).Some?
    ensures exists i :: 0 <= i < |rows| && rows[i] == ActiveSeason(rows).value
                        && forall k :: 0 <= k < i ==> rows[k].state != InProgress
    decreases |rows|
  {
    if rows[0].state != InProgress {
      ActiveSeasonIsFirst(rows[1..]);
      var i :| 0 <= i < |rows[1..]| && rows[1..][i] == ActiveSeason(rows[1..]).value
               && forall k :: 0 <= k < i ==> rows[1..][k].state != InProgress;
      assert rows[i + 1] == ActiveSeason(rows).value;
      assert forall k :: 0 <= k < i + 1 ==> rows[k].state != InProgress by {
        forall k | 0 <= k < i + 1 ensures rows[k].state != InProgress {
          if k > 0 { assert rows[k] == rows[1..][k - 1]; }
        }
      }
    }
  }

  /** Newest first. */
  function CreatedKey(s: Season): Key
  {
    Key(s.createdAt, 0, 0)
  }

  /** The rows `get_all_seasons` selects, in table order. */
  function Selected(rows: seq<Season>, includeCompleted: bool): seq<Season>
  {
    Filter(rows, (s: Season) => includeCompleted || s.state != Completed)
  }

  /** `get_all_seasons`: every season, or every season not COMPLETED, newest
      first. */
  function AllSeasons(rows: seq<Season>, includeCompleted: bool): seq<Season>
  {
    SortDesc(Selected(rows, includeCompleted), CreatedKey)
  }

  /** The listing holds exactly the seasons the filter admits, each as often
      as in the table, newest first, and seasons created at the same time in
      table order. */
  lemma AllSeasonsCorrect(rows: seq<Season>, includeCompleted: bool, k: Key)
    ensures forall s :: s in AllSeasons(rows, includeCompleted) <==> s in rows && (includeCompleted || s.state != Completed)
    ensures multiset(AllSeasons(rows, includeCompleted)) == multiset(Selected(rows, includeCompleted))
    ensures SortedDesc(AllSeasons(rows, includeCompleted), CreatedKey)
    ensures WithKey(AllSeasons(rows, includeCompleted), CreatedKey, k)
         == WithKey(Selected(rows, includeCompleted), CreatedKey, k)
  {
    var kept := Selected(rows, includeCompleted);
    SortDescCorrect(kept, CreatedKey);
    SortDescStable(kept, CreatedKey, k);
    forall s
      ensures s in AllSeasons(rows, includeCompleted) <==> s in kept
    {
      assert s in AllSeasons(rows, includeCompleted) <==> s in multiset(AllSeasons(rows, includeCompleted));
    }
    forall s | s in rows && (includeCompleted || s.state != Completed)
      ensures s in kept
    {
      var i :| 0 <= i < |rows| && rows[i] == s;
    }
  }

  /** The seasons table. */
  class SeasonTable {
    var rows: seq<Season>

    constructor ()
      ensures rows == []
    {
      rows := [];
    }

    /** `get_season_by_name`: the first season of that name. */
    function ByName(name: string): (r: Option<Season>)
      reads this
      ensures r.Some? <==> exists i :: 0 <= i < |rows| && rows[i].name == name
      ensures r.Some? ==> r.value in rows && r.value.name == name
    {
      FirstNamed(rows, name)
    }

    /** `create_season`: a name already in use raises `ValueError`;
        otherwise a NOT_STARTED season is added. `id` is the fresh key the
        database generates. */
    method CreateSeason(id: Id, name: string, now: Time) returns (r: Result<Season, SeasonError>)
      requires forall i :: 0 <= i < |rows| ==> rows[i].id != id
      modifies this
      ensures old(ByName(name)).Some? ==> r == Err(DuplicateName) && rows == old(rows)
      ensures old(ByName(name)).None? ==>
        r == Ok(Season(id, name, NotStarted, now)) && rows == old(rows) + [r.value]
      ensures Unique(old(rows)) ==> Unique(rows)
    {
      var existing := ByName(name);
      if existing.Some? {
        return Err(DuplicateName);
      }
      var season := Season(id, name, NotStarted, now);
      rows := rows + [season];
      return Ok(season);
    }

    /** The guarded move shared by start, complete and reopen: a missing
        season raises `ValueError`, a season not in `from` raises
        `SeasonStateError`, and otherwise its state becomes `to`. */
    method Transition(id: Id, from: SeasonState, to: SeasonState) returns (r: Result<Season, SeasonError>)
      modifies this
      ensures IndexOf(old(rows), id).None? ==> r == Err(SeasonNotFound) && rows == old(rows)
      ensures IndexOf(old(rows), id).Some? && old(rows)[IndexOf(old(rows), id).value].state != from ==>
        r == Err(WrongState) && rows == old(rows)
      ensures IndexOf(old(rows), id).Some? && old(rows)[IndexOf(old(rows), id).value].state == from ==>
        r == Ok(old(rows)[IndexOf(old(rows), id).value].(state := to))
        && rows == old(rows)[IndexOf(old(rows), id).value := r.value]
      ensures Unique(old(rows)) ==> Unique(rows)
    {
      var i := IndexOf(rows, id);
      if i.None? {
        return Err(SeasonNotFound);
      }
      if rows[i.value].state != from {
        return Err(WrongState);
      }
      var season := rows[i.value].(state := to);
      rows := rows[i.value := season];
      return Ok(season);
    }

    /** `start_season`: NOT_STARTED → IN_PROGRESS. */
    method StartSeason(id: Id) returns (r: Result<Season, SeasonError>)
      modifies this
      ensures r.Ok? <==> IndexOf(old(rows), id).Some? && old(rows)[IndexOf(old(rows), id).value].state == NotStarted
      ensures r.Ok? ==> r.value.state == InProgress && rows == old(rows)[IndexOf(old(rows), id).value := r.value]
      ensures r.Err? ==> rows == old(rows)
      ensures Unique(old(rows)) ==> Unique(rows)
    {
      r := Transition(id, NotStarted, InProgress);
    }

    /** `complete_season`: IN_PROGRESS → COMPLETED. */
    method CompleteSeason(id: Id) returns (r: Result<Season, SeasonError>)
      modifies this
      ensures r.Ok? <==> IndexOf(old(rows), id).Some? && old(rows)[IndexOf(old(rows), id).value].state == InProgress
      ensures r.Ok? ==> r.value.state == Completed && rows == old(rows)[IndexOf(old(rows), id).value := r.value]
      ensures r.Err? ==> rows == old(rows)
      ensures Unique(old(rows)) ==> Unique(rows)
    {
      r := Transition(id, InProgress, Completed);
    }

    /** `reopen_season`: COMPLETED → IN_PROGRESS. */
    method ReopenSeason(id: Id) returns (r: Result<Season, SeasonError>)
      modifies this
      ensures r.Ok? <==> IndexOf(old(rows), id).Some? && old(rows)[IndexOf(old(rows), id).value].state == Completed
      ensures r.Ok? ==> r.value.state == InProgress && rows == old(rows)[IndexOf(old(rows), id).value := r.value]
      ensures r.Err? ==> rows == old(rows)
      ensures Unique(old(rows)) ==> Unique(rows)
    {
      r := Transition(id, Completed, InProgress);
    }
  }

  /** The first season named `name`. */
  function FirstNamed(rows: seq<Season>, name: string): (r: Option<Season>)
    ensures r.Some? <==> exists i :: 0 <= i < |rows| && rows[i].name == name
    ensures r.Some? ==> r.value in rows && r.value.name == name
  {
    if rows == [] then None
    else if rows[0].name == name then Some(rows[0])
    else FirstNamed(rows[1..], name)
  }
}
