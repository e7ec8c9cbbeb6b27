/** The game-state container of src/hooks/useGame.tsx: one state value
    that every operation replaces with a new one computed from the old.
    Persistence and alerts are not modelled; a refused operation returns
    the state unchanged. */
module GameState {
  import opened Types
  import TeamUtils
  import PlayerGenerator

  datatype GameState = GameState(
    playerTeam: Option<Team>,
    region: Option<Region>,
    allTeams: seq<Team>,
    schedule: seq<Match>,
    currentWeek: int,
    currentStage: Stage)

  /** The state of a new or reset game: no team, week 1 of Stage 1. */
  function InitialState(): GameState
  {
    GameState(None, None, [], [], 1, Stage1)
  }

  // ---------------------------------------------------------------------
  // Roster helpers
  // ---------------------------------------------------------------------

  /** The first roster player with that id, if any. */
  function FindPlayer(roster: seq<Player>, id: string): (r: Option<Player>)
    ensures r.Some? <==> exists p :: p in roster && p.id == id
    ensures r.Some? ==> exists i :: 0 <= i < |roster| && roster[i] == r.value && r.value.id == id
                                    && forall j :: 0 <= j < i ==> roster[j].id != id
  {
    if roster == [] then None
    else if roster[0].id == id then Some(roster[0])
    else
      var r := FindPlayer(roster[1..], id);
      if r.Some? then
        var i :| 0 <= i < |roster[1..]| && roster[1..][i] == r.value && r.value.id == id
                 && forall j :: 0 <= j < i ==> roster[1..][j].id != id;
        assert roster[i + 1] == r.value;
        r
      else r
  }

  /** The player with that id exists and the first such is a reserve. */
  predicate FoundReserve(roster: seq<Player>, id: string)
  {
    FindPlayer(roster, id).Some? && FindPlayer(roster, id).value.status == Reserve
  }

  /** The roster with every player of that id given the new status. */
  function SetStatus(roster: seq<Player>, id: string, status: Status): (r: seq<Player>)
    ensures |r| == |roster|
    ensures forall i :: 0 <= i < |roster| ==>
      r[i] == (if roster[i].id == id then roster[i].(status := status) else roster[i])
  {
    if roster == [] then []
    else [if roster[0].id == id then roster[0].(status := status) else roster[0]] + SetStatus(roster[1..], id, status)
  }

  /** The roster without the players of that id, in order. */
  function RemoveById(roster: seq<Player>, id: string): (r: seq<Player>)
    ensures |r| <= |roster|
    ensures forall p :: p in r <==> p in roster && p.id != id
  {
    if roster == [] then []
    else if roster[0].id == id then RemoveById(roster[1..], id)
    else [roster[0]] + RemoveById(roster[1..], id)
  }

  /** The roster limits: at most 8 players, 5 active and 3 reserves. */
  predicate WithinLimits(roster: seq<Player>)
  {
    |roster| <= 8 && |ActivePlayers(roster)| <= 5 && |ReservePlayers(roster)| <= 3
  }

  /** The state's team, or every state without one. */
  predicate TeamWithinLimits(s: GameState)
  {
    s.playerTeam.Some? ==> WithinLimits(s.playerTeam.value.roster)
  }

  /** The league with every team of that name replaced by `team`. */
  function ReplaceTeam(teams: seq<Team>, name: string, team: Team): (r: seq<Team>)
    ensures |r| == |teams|
    ensures forall i :: 0 <= i < |teams| ==> r[i] == (if teams[i].name == name then team else teams[i])
  {
    if teams == [] then []
    else [if teams[0].name == name then team else teams[0]] + ReplaceTeam(teams[1..], name, team)
  }

  /** One match with each slot holding the team of that name replaced. */
  function ReplaceSlots(m: Match, name: string, team: Team): Match
  {
    m.(teamA := if m.teamA.name == name then team else m.teamA,
       teamB := if m.teamB.name == name then team else m.teamB)
  }

  /** Both slots of every match: the team of that name is replaced. */
  function ReplaceInSchedule(schedule: seq<Match>, name: string, team: Team): (r: seq<Match>)
    ensures |r| == |schedule|
    ensures forall i :: 0 <= i < |schedule| ==> r[i] == ReplaceSlots(schedule[i], name, team)
  {
    if schedule == [] then []
    else
      var rest := ReplaceInSchedule(schedule[1..], name, team);
      assert forall i :: 1 <= i < |schedule| ==> schedule[1..][i - 1] == schedule[i];
      [ReplaceSlots(schedule[0], name, team)] + rest
  }

  // ---------------------------------------------------------------------
  // Transitions
  // ---------------------------------------------------------------------

  /** Signs a free agent: refused without a team or with 8 players on the
      roster; otherwise the player joins at the end of the roster, on the
      team, active when fewer than 5 are active and reserve otherwise, and
      the team is replaced by name in `allTeams` and in both slots of every
      scheduled match. */
  function SignFreeAgentStep(s: GameState, player: Player): (r: GameState)
    ensures s.playerTeam.None? || |s.playerTeam.value.roster| >= 8 ==> r == s
    ensures s.playerTeam.Some? && |s.playerTeam.value.roster| < 8 ==>
      var team := s.playerTeam.value;
      var status := if |ActivePlayers(team.roster)| < 5 then Active else Reserve;
      var updated := team.(roster := team.roster + [player.(teamId := Some(team.name), status := status)]);
      && r.playerTeam == Some(updated)
      && r.allTeams == ReplaceTeam(s.allTeams, team.name, updated)
      && r.schedule == ReplaceInSchedule(s.schedule, team.name, updated)
      && r.region == s.region && r.currentWeek == s.currentWeek && r.currentStage == s.currentStage
  {
    if s.playerTeam.None? || |s.playerTeam.value.roster| >= 8 then s
    else
      var team := s.playerTeam.value;
      var status := if |ActivePlayers(team.roster)| < 5 then Active else Reserve;
      var updated := team.(roster := team.roster + [player.(teamId := Some(team.name), status := status)]);
      s.(playerTeam := Some(updated),
         allTeams := ReplaceTeam(s.allTeams, team.name, updated),
         schedule := ReplaceInSchedule(s.schedule, team.name, updated))
  }

  /** Releases a player: only a reserve can be released, and then every
      roster entry with that id leaves; only the team's roster changes. */
  function ReleasePlayerStep(s: GameState, id: string): (r: GameState)
    ensures s.playerTeam.None? || !FoundReserve(s.playerTeam.value.roster, id) ==> r == s
    ensures s.playerTeam.Some? && FoundReserve(s.playerTeam.value.roster, id) ==>
      && r.playerTeam.Some?
      && r.playerTeam.value == s.playerTeam.value.(roster := r.playerTeam.value.roster)
      && |r.playerTeam.value.roster| < |s.playerTeam.value.roster|
      && (forall p :: p in r.playerTeam.value.roster <==> p in s.playerTeam.value.roster && p.id != id)
    ensures r.allTeams == s.allTeams && r.schedule == s.schedule && r.region == s.region
    ensures r.currentWeek == s.currentWeek && r.currentStage == s.currentStage
  {
    if s.playerTeam.None? || !FoundReserve(s.playerTeam.value.roster, id) then s
    else
      var roster := s.playerTeam.value.roster;
      var found := FindPlayer(roster, id).value;
      assert found in roster && found !in RemoveById(roster, id);
      RemovalShrinks(roster, id, found);
      s.(playerTeam := Some(s.playerTeam.value.(roster := RemoveById(roster, id))))
  }

  lemma {:induction false} RemovalShrinks(roster: seq<Player>, id: string, p: Player)
    requires p in roster && p.id == id
    ensures |RemoveById(roster, id)| < |roster|
  {
    if roster[0].id != id {
      RemovalShrinks(roster[1..], id, p);
    } else {
      assert |RemoveById(roster[1..], id)| <= |roster[1..]|;
    }
  }

  /** Benches a player: refused when the player is already a reserve or 3
      reserves exist; otherwise every entry with that id becomes a reserve
      and nothing else changes. */
  function MoveToReserveStep(s: GameState, id: string): (r: GameState)
    ensures s.playerTeam.None? ==> r == s
    ensures s.playerTeam.Some? ==>
      var roster := s.playerTeam.value.roster;
      (FoundReserve(roster, id) || |ReservePlayers(roster)| >= 3 ==> r == s)
      && (!FoundReserve(roster, id) && |ReservePlayers(roster)| < 3 ==>
            r == s.(playerTeam := Some(s.playerTeam.value.(roster := SetStatus(roster, id, Reserve)))))
  {
    if s.playerTeam.None? then s
    else
      var roster := s.playerTeam.value.roster;
      if FoundReserve(roster, id) || |ReservePlayers(roster)| >= 3 then s
      else s.(playerTeam := Some(s.playerTeam.value.(roster := SetStatus(roster, id, Reserve))))
  }

  /** Activates a reserve: refused unless the player is a reserve and
      fewer than 5 are active; otherwise every entry with that id becomes
      active and nothing else changes. */
  function MoveToActiveStep(s: GameState, id: string): (r: GameState)
    ensures s.playerTeam.None? ==> r == s
    ensures s.playerTeam.Some? ==>
      var roster := s.playerTeam.value.roster;
      (!FoundReserve(roster, id) || |ActivePlayers(roster)| >= 5 ==> r == s)
      && (FoundReserve(roster, id) && |ActivePlayers(roster)| < 5 ==>
            r == s.(playerTeam := Some(s.playerTeam.value.(roster := SetStatus(roster, id, Active)))))
  {
    if s.playerTeam.None? then s
    else
      var roster := s.playerTeam.value.roster;
      if !FoundReserve(roster, id) || |ActivePlayers(roster)| >= 5 then s
      else s.(playerTeam := Some(s.playerTeam.value.(roster := SetStatus(roster, id, Active))))
  }

  /** The schedule with every match of that id replaced by the updated one. */
  function UpdateMatchResultStep(s: GameState, matchId: string, updated: Match): (r: GameState)
    ensures |r.schedule| == |s.schedule|
    ensures forall i :: 0 <= i < |s.schedule| ==>
      r.schedule[i] == (if s.schedule[i].id == matchId then updated else s.schedule[i])
    ensures r.playerTeam == s.playerTeam && r.allTeams == s.allTeams && r.region == s.region
    ensures r.currentWeek == s.currentWeek && r.currentStage == s.currentStage
  {
    s.(schedule := ReplaceMatch(s.schedule, matchId, updated))
  }

  function ReplaceMatch(schedule: seq<Match>, matchId: string, updated: Match): (r: seq<Match>)
    ensures |r| == |schedule|
    ensures forall i :: 0 <= i < |schedule| ==> r[i] == (if schedule[i].id == matchId then updated else schedule[i])
  {
    if schedule == [] then []
    else [if schedule[0].id == matchId then updated else schedule[0]] + ReplaceMatch(schedule[1..], matchId, updated)
  }

  // ---------------------------------------------------------------------
  // Properties
  // ---------------------------------------------------------------------

  /** Recording the same result twice is recording it once. */
  lemma UpdateMatchResultIdempotent(s: GameState, matchId: string, updated: Match)
    ensures UpdateMatchResultStep(UpdateMatchResultStep(s, matchId, updated), matchId, updated)
         == UpdateMatchResultStep(s, matchId, updated)
  {
    var once := UpdateMatchResultStep(s, matchId, updated);
    var twice := UpdateMatchResultStep(once, matchId, updated);
    assert twice.schedule == once.schedule;
  }

  lemma {:induction false} ActivePlayersAppend(roster: seq<Player>, p: Player)
    ensures ActivePlayers(roster + [p]) == ActivePlayers(roster) + (if IsActive(p) then [p] else [])
  {
    if roster != [] {
      assert (roster + [p])[1..] == roster[1..] + [p];
      ActivePlayersAppend(roster[1..], p);
    }
  }

  /** Signing keeps a team within the 8 / 5 / 3 limits: the newcomer is
      active only while fewer than 5 are, and is otherwise the at most
      third reserve of a roster below 8. */
  lemma {:induction false} SignKeepsLimits(s: GameState, player: Player)
    requires TeamWithinLimits(s)
    ensures TeamWithinLimits(SignFreeAgentStep(s, player))
  {
    if s.playerTeam.Some? && |s.playerTeam.value.roster| < 8 {
      var roster := s.playerTeam.value.roster;
      var status := if |ActivePlayers(roster)| < 5 then Active else Reserve;
      var p := player.(teamId := Some(s.playerTeam.value.name), status := status);
      ActivePlayersAppend(roster, p);
      assert |ReservePlayers(roster + [p])| + |ActivePlayers(roster + [p])| == |roster| + 1;
    }
  }

  lemma {:induction false} RemoveCounts(roster: seq<Player>, id: string)
    ensures |ActivePlayers(RemoveById(roster, id))| <= |ActivePlayers(roster)|
    ensures |ReservePlayers(RemoveById(roster, id))| <= |ReservePlayers(roster)|
  {
    if roster != [] {
      RemoveCounts(roster[1..], id);
      if roster[0].id != id {
        assert ([roster[0]] + RemoveById(roster[1..], id))[1..] == RemoveById(roster[1..], id);
      }
    }
  }

  /** Releasing never breaks the limits. */
  lemma ReleaseKeepsLimits(s: GameState, id: string)
    requires TeamWithinLimits(s)
    ensures TeamWithinLimits(ReleasePlayerStep(s, id))
  {
    if s.playerTeam.Some? {
      RemoveCounts(s.playerTeam.value.roster, id);
    }
  }

  lemma {:induction false} SetStatusAbsent(roster: seq<Player>, id: string, status: Status)
    requires forall i :: 0 <= i < |roster| ==> roster[i].id != id
    ensures SetStatus(roster, id, status) == roster
  {
  }

  /** With distinct ids, a status change moves at most one player into
      the target group. */
  lemma {:induction false} SetStatusCounts(roster: seq<Player>, id: string, status: Status)
    requires DistinctIds(roster)
    ensures status == Active ==> |ActivePlayers(SetStatus(roster, id, status))| <= |ActivePlayers(roster)| + 1
    ensures status == Reserve ==> |ReservePlayers(SetStatus(roster, id, status))| <= |ReservePlayers(roster)| + 1
  {
    if roster != [] {
      var rest := roster[1..];
      assert DistinctIds(rest) by {
        forall i, j | 0 <= i < j < |rest| ensures rest[i].id != rest[j].id {
          assert rest[i] == roster[i + 1] && rest[j] == roster[j + 1];
        }
      }
      var head := if roster[0].id == id then roster[0].(status := status) else roster[0];
      assert SetStatus(roster, id, status) == [head] + SetStatus(rest, id, status);
      assert ([head] + SetStatus(rest, id, status))[1..] == SetStatus(rest, id, status);
      if roster[0].id == id {
        assert forall i :: 0 <= i < |rest| ==> rest[i].id != id by {
          forall i | 0 <= i < |rest| ensures rest[i].id != id {
            assert rest[i] == roster[i + 1];
          }
        }
        SetStatusAbsent(rest, id, status);
      } else {
        SetStatusCounts(rest, id, status);
      }
    }
  }

  /** Benching never breaks the limits when ids are distinct: it is
      refused once 3 reserves exist. */
  lemma MoveToReserveKeepsLimits(s: GameState, id: string)
    requires TeamWithinLimits(s)
    requires s.playerTeam.Some? ==> DistinctIds(s.playerTeam.value.roster)
    ensures TeamWithinLimits(MoveToReserveStep(s, id))
  {
    if s.playerTeam.Some? {
      var roster := s.playerTeam.value.roster;
      SetStatusCounts(roster, id, Reserve);
      var after := SetStatus(roster, id, Reserve);
      assert |ReservePlayers(after)| + |ActivePlayers(after)| == |roster|;
      assert |ActivePlayers(after)| <= 5 by {
        ActiveNotGained(roster, id);
      }
    }
  }

  /** Benching players never adds an active one. */
  lemma {:induction false} ActiveNotGained(roster: seq<Player>, id: string)
    ensures |ActivePlayers(SetStatus(roster, id, Reserve))| <= |ActivePlayers(roster)|
  {
    if roster != [] {
      var head := if roster[0].id == id then roster[0].(status := Reserve) else roster[0];
      assert SetStatus(roster, id, Reserve) == [head] + SetStatus(roster[1..], id, Reserve);
      assert ([head] + SetStatus(roster[1..], id, Reserve))[1..] == SetStatus(roster[1..], id, Reserve);
      ActiveNotGained(roster[1..], id);
    }
  }

  /** Activating players never adds a reserve. */
  lemma {:induction false} ReserveNotGained(roster: seq<Player>, id: string)
    ensures |ReservePlayers(SetStatus(roster, id, Active))| <= |ReservePlayers(roster)|
  {
    if roster != [] {
      var head := if roster[0].id == id then roster[0].(status := Active) else roster[0];
      assert SetStatus(roster, id, Active) == [head] + SetStatus(roster[1..], id, Active);
      assert ([head] + SetStatus(roster[1..], id, Active))[1..] == SetStatus(roster[1..], id, Active);
      ReserveNotGained(roster[1..], id);
    }
  }

  /** Activating never pushes the active count above 5 when ids are
      distinct: it is refused once 5 are active. */
  lemma MoveToActiveKeepsLimits(s: GameState, id: string)
    requires TeamWithinLimits(s)
    requires s.playerTeam.Some? ==> DistinctIds(s.playerTeam.value.roster)
    ensures TeamWithinLimits(MoveToActiveStep(s, id))
  {
    if s.playerTeam.Some? {
      var roster := s.playerTeam.value.roster;
      SetStatusCounts(roster, id, Active);
      ReserveNotGained(roster, id);
    }
  }

  // ---------------------------------------------------------------------
  // The provider
  // ---------------------------------------------------------------------

  /** The provider's single state, replaced by every operation. */
  class Game {
    var state: GameState

    constructor ()
      ensures state == InitialState()
    {
      state := InitialState();
    }

    /** Builds the region's teams and schedule, then the chosen team
        through the cache. A cached team is always found; otherwise the
        team is built from its table entry, and when the table has no such
        name the state and the cache are left as they were. On success the
        state holds the region, every table team built from its entry, the
        weekly shuffle of their round-robin fixtures, week 1 and Stage 1. */
    method InitializeGame(teamName: string, region: Region, cache: TeamUtils.TeamCache,
                          basicTeams: seq<TeamUtils.BasicTeam>, elitePlayers: seq<Player>,
                          shuffles: PlayerGenerator.ShuffleSource, rand: DrawStream, cursor: nat)
      returns (ok: bool, next: nat, ghost shuffled: seq<Match>)
      requires ValidStream(rand) && PlayerGenerator.ValidShuffleSource(shuffles)
      modifies this, cache
      ensures TeamUtils.CacheKey(region, teamName) in old(cache.cache) ==>
        ok && state.playerTeam == Some(old(cache.cache)[TeamUtils.CacheKey(region, teamName)])
      ensures TeamUtils.CacheKey(region, teamName) !in old(cache.cache) ==>
        (ok <==> TeamUtils.FindBasicTeam(basicTeams, teamName).Some?)
      ensures TeamUtils.CacheKey(region, teamName) !in old(cache.cache) && ok ==>
        state.playerTeam.Some? &&
        TeamUtils.BuiltFrom(state.playerTeam.value, TeamUtils.FindBasicTeam(basicTeams, teamName).value, elitePlayers)
      ensures !ok ==> state == old(state) && cache.cache == old(cache.cache)
      ensures ok ==> state.playerTeam.Some? && state.region == Some(region)
                     && cache.cache == old(cache.cache)[TeamUtils.CacheKey(region, teamName) := state.playerTeam.value]
                     && |state.allTeams| == |basicTeams|
                     && state.currentWeek == 1 && state.currentStage == Stage1
      ensures ok ==> forall t :: 0 <= t < |basicTeams| ==>
        TeamUtils.BuiltFrom(state.allTeams[t],
                            TeamUtils.FindBasicTeam(basicTeams, basicTeams[t].name).value, elitePlayers)
      ensures ok && |basicTeams| < 2 ==> state.schedule == []
      ensures ok && |basicTeams| >= 2 ==>
        && |shuffled| == |state.schedule|
        && multiset(shuffled) == multiset(TeamUtils.RoundRobin(state.allTeams))
        && (forall k :: 0 <= k < |state.schedule| ==>
              state.schedule[k] == shuffled[k].(week := TeamUtils.WeekOf(k, |basicTeams|)))
    {
      var teams, schedule;
      teams, schedule, next, shuffled := TeamUtils.GenerateSchedule(region, basicTeams, elitePlayers, shuffles, rand, cursor);
      var offset: nat := 0;
      for t := 0 to |basicTeams| {
        offset := offset + |basicTeams[t].roster|;
      }
      var playerTeam;
      playerTeam, next := cache.GetCachedTeam(teamName, region, basicTeams, elitePlayers, shuffles, offset, rand, next);
      if playerTeam.Err? {
        ok := false;
        return;
      }
      state := GameState(Some(playerTeam.value), Some(region), teams, schedule, 1, Stage1);
      ok := true;
    }

    method UpdateMatchResult(matchId: string, updated: Match)
      modifies this
      ensures state == UpdateMatchResultStep(old(state), matchId, updated)
    {
      state := UpdateMatchResultStep(state, matchId, updated);
    }

    method AdvanceWeek()
      modifies this
      ensures state == old(state).(currentWeek := old(state).currentWeek + 1)
    {
      state := state.(currentWeek := state.currentWeek + 1);
    }

    method ResetGame()
      modifies this
      ensures state == InitialState()
    {
      state := InitialState();
    }

    method SignFreeAgent(player: Player)
      modifies this
      ensures state == SignFreeAgentStep(old(state), player)
    {
      state := SignFreeAgentStep(state, player);
    }

    method ReleasePlayer(id: string)
      modifies this
      ensures state == ReleasePlayerStep(old(state), id)
    {
      state := ReleasePlayerStep(state, id);
    }

    method MoveToReserve(id: string)
      modifies this
      ensures state == MoveToReserveStep(old(state), id)
    {
      state := MoveToReserveStep(state, id);
    }

    method MoveToActive(id: string)
      modifies this
      ensures state == MoveToActiveStep(old(state), id)
    {
      state := MoveToActiveStep(state, id);
    }
  }
}
