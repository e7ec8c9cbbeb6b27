/** The team record shown on the dashboard of src/components/Dashboard.tsx:
    wins and losses counted over the schedule, and the map and round
    differentials accumulated over the decided matches the team played. */
module Dashboard {
  import opened Types
  import opened Standings

  /** The match's winner bears the team's name. */
  predicate WonBy(m: Match, teamName: string)
  {
    m.winner.Some? && m.winner.value.name == teamName
  }

  /** The team plays on one side of the match. */
  predicate Involves(m: Match, teamName: string)
  {
    m.teamA.name == teamName || m.teamB.name == teamName
  }

  /** Decided, played by the team, and won by someone else. */
  predicate LostBy(m: Match, teamName: string)
  {
    m.winner.Some? && m.winner.value.name != teamName && Involves(m, teamName)
  }

  /** How many scheduled matches the team has won. */
  function Wins(schedule: seq<Match>, teamName: string): (n: nat)
    ensures n <= |schedule|
    decreases |schedule|
  {
    if schedule == [] then 0
    else Wins(schedule[..|schedule| - 1], teamName) + (if WonBy(schedule[|schedule| - 1], teamName) then 1 else 0)
  }

  /** The matches the team lost, counted the same way. */
  function Losses(schedule: seq<Match>, teamName: string): (n: nat)
    ensures n <= |schedule|
    decreases |schedule|
  {
    if schedule == [] then 0
    else Losses(schedule[..|schedule| - 1], teamName) + (if LostBy(schedule[|schedule| - 1], teamName) then 1 else 0)
  }

  /** No match counts both as a win and as a loss, so the record never
      holds more results than the schedule has matches. */
  lemma {:induction false} WinsAndLosses(schedule: seq<Match>, teamName: string)
    ensures Wins(schedule, teamName) + Losses(schedule, teamName) <= |schedule|
    decreases |schedule|
  {
    if schedule != [] {
      WinsAndLosses(schedule[..|schedule| - 1], teamName);
    }
  }

  /** The decided matches the team played. */
  function DecidedFor(schedule: seq<Match>, teamName: string): nat
    decreases |schedule|
  {
    if schedule == [] then 0
    else
      var last := schedule[|schedule| - 1];
      DecidedFor(schedule[..|schedule| - 1], teamName) + (if last.winner.Some? && Involves(last, teamName) then 1 else 0)
  }

  /** When a match is only ever won by a team that plays in it, the
      team's wins and losses together are exactly its decided matches. */
  lemma {:induction false} RecordCountsDecided(schedule: seq<Match>, teamName: string)
    requires forall i :: 0 <= i < |schedule| ==> WonBy(schedule[i], teamName) ==> Involves(schedule[i], teamName)
    ensures Wins(schedule, teamName) + Losses(schedule, teamName) == DecidedFor(schedule, teamName)
    decreases |schedule|
  {
    if schedule != [] {
      var init := schedule[..|schedule| - 1];
      assert forall i :: 0 <= i < |init| ==> init[i] == schedule[i];
      RecordCountsDecided(init, teamName);
    }
  }

  /** The maps won by the team's side: a side is the team's when its flag
      is set, so a team on both sides wins every map. */
  function TeamMaps(maps: seq<MapResult>, isTeamA: bool, isTeamB: bool): (n: nat)
    ensures n <= |maps|
    decreases |maps|
  {
    if maps == [] then 0
    else
      var last := maps[|maps| - 1];
      TeamMaps(maps[..|maps| - 1], isTeamA, isTeamB)
      + (if (isTeamA && last.winner == TeamA) || (isTeamB && last.winner == TeamB) then 1 else 0)
  }

  /** What one map adds to the round differential: the team's score
      minus the other side's, side A taking precedence. */
  function MapRounds(result: MapResult, isTeamA: bool, isTeamB: bool): int
  {
    if isTeamA then result.teamAScore - result.teamBScore
    else if isTeamB then result.teamBScore - result.teamAScore
    else 0
  }

  function TeamRounds(maps: seq<MapResult>, isTeamA: bool, isTeamB: bool): int
    decreases |maps|
  {
    if maps == [] then 0
    else TeamRounds(maps[..|maps| - 1], isTeamA, isTeamB) + MapRounds(maps[|maps| - 1], isTeamA, isTeamB)
  }

  /** Maps present, winner present and the team on a side: only such a
      match moves the differentials. */
  predicate Recorded(m: Match, teamName: string)
  {
    m.maps.Some? && m.winner.Some? && Involves(m, teamName)
  }

  /** Maps won minus maps lost in one match. */
  function MapDelta(m: Match, teamName: string): int
  {
    if !Recorded(m, teamName) then 0
    else 2 * TeamMaps(m.maps.value, m.teamA.name == teamName, m.teamB.name == teamName) - |m.maps.value|
  }

  /** Rounds won minus rounds lost in one match. */
  function RoundDelta(m: Match, teamName: string): int
  {
    if !Recorded(m, teamName) then 0
    else TeamRounds(m.maps.value, m.teamA.name == teamName, m.teamB.name == teamName)
  }

  function MapDifferential(schedule: seq<Match>, teamName: string): int
    decreases |schedule|
  {
    if schedule == [] then 0
    else MapDifferential(schedule[..|schedule| - 1], teamName) + MapDelta(schedule[|schedule| - 1], teamName)
  }

  function RoundDifferential(schedule: seq<Match>, teamName: string): int
    decreases |schedule|
  {
    if schedule == [] then 0
    else RoundDifferential(schedule[..|schedule| - 1], teamName) + RoundDelta(schedule[|schedule| - 1], teamName)
  }

  /** The map differential of a match lies between losing and winning
      every map, and is zero unless the match is recorded. */
  lemma MapDeltaBounds(m: Match, teamName: string)
    ensures !Recorded(m, teamName) ==> MapDelta(m, teamName) == 0
    ensures Recorded(m, teamName) ==> -|m.maps.value| <= MapDelta(m, teamName) <= |m.maps.value|
  {
  }

  /** The view's computation: the two counts, then one pass over the
      schedule that skips matches not recorded for the team and adds the
      map margin and, map by map, the round margin. */
  method TeamRecord(schedule: seq<Match>, teamName: string)
    returns (wins: nat, losses: nat, mapDifferential: int, roundDifferential: int)
    ensures wins == Wins(schedule, teamName) && losses == Losses(schedule, teamName)
    ensures mapDifferential == MapDifferential(schedule, teamName)
    ensures roundDifferential == RoundDifferential(schedule, teamName)
  {
    wins := Wins(schedule, teamName);
    losses := Losses(schedule, teamName);
    mapDifferential := 0;
    roundDifferential := 0;
    for i := 0 to |schedule|
      invariant mapDifferential == MapDifferential(schedule[..i], teamName)
      invariant roundDifferential == RoundDifferential(schedule[..i], teamName)
    {
      assert schedule[..i + 1][..i] == schedule[..i];
      var m := schedule[i];
      if m.maps.None? || m.winner.None? {
        continue;
      }
      var isTeamA, isTeamB := m.teamA.name == teamName, m.teamB.name == teamName;
      if !isTeamA && !isTeamB {
        continue;
      }
      var maps := m.maps.value;
      var teamMaps := TeamMaps(maps, isTeamA, isTeamB);
      var opponentMaps := |maps| - teamMaps;
      mapDifferential := mapDifferential + (teamMaps - opponentMaps);
      var before := roundDifferential;
      for j := 0 to |maps|
        invariant roundDifferential == before + TeamRounds(maps[..j], isTeamA, isTeamB)
      {
        assert maps[..j + 1][..j] == maps[..j];
        if isTeamA {
          roundDifferential := roundDifferential + (maps[j].teamAScore - maps[j].teamBScore);
        } else if isTeamB {
          roundDifferential := roundDifferential + (maps[j].teamBScore - maps[j].teamAScore);
        }
      }
      assert maps[..|maps|] == maps;
    }
    assert schedule[..|schedule|] == schedule;
  }

  // ---------------------------------------------------------------------
  // Agreement with the league table
  // ---------------------------------------------------------------------

  /** Every map is won by one of the two sides. */
  lemma {:induction false} MapsSplit(maps: seq<MapResult>)
    ensures MapsWonBy(maps, TeamA) + MapsWonBy(maps, TeamB) == |maps|
    decreases |maps|
  {
    if maps != [] {
      MapsSplit(maps[..|maps| - 1]);
    }
  }

  /** With the team on exactly one side, its maps are that side's. */
  lemma {:induction false} TeamMapsSide(maps: seq<MapResult>, isTeamA: bool, isTeamB: bool)
    ensures isTeamA && !isTeamB ==> TeamMaps(maps, isTeamA, isTeamB) == MapsWonBy(maps, TeamA)
    ensures !isTeamA && isTeamB ==> TeamMaps(maps, isTeamA, isTeamB) == MapsWonBy(maps, TeamB)
    decreases |maps|
  {
    if maps != [] {
      TeamMapsSide(maps[..|maps| - 1], isTeamA, isTeamB);
    }
  }

  /** Side A's round total is the league table's round margin; side B's
      is its negation. */
  lemma {:induction false} TeamRoundsSide(maps: seq<MapResult>, isTeamA: bool, isTeamB: bool)
    ensures isTeamA ==> TeamRounds(maps, isTeamA, isTeamB) == RoundMargin(maps)
    ensures !isTeamA && isTeamB ==> TeamRounds(maps, isTeamA, isTeamB) == -RoundMargin(maps)
    decreases |maps|
  {
    if maps != [] {
      TeamRoundsSide(maps[..|maps| - 1], isTeamA, isTeamB);
    }
  }

  /** A match as the league produces it: two different teams, both in the
      table, and a winner only once the maps are in, the winner being one
      of the two. */
  predicate Reported(t: seq<TeamStanding>, m: Match)
  {
    && m.teamA.name != m.teamB.name
    && IndexOfName(t, m.teamA.name).Some? && IndexOfName(t, m.teamB.name).Some?
    && (m.winner.Some? ==> m.maps.Some? && (m.winner.value.name == m.teamA.name || m.winner.value.name == m.teamB.name))
  }

  /** Every match of `schedule` is reported. */
  predicate AllReported(t: seq<TeamStanding>, schedule: seq<Match>)
    decreases |schedule|
  {
    schedule != [] ==> AllReported(t, schedule[..|schedule| - 1]) && Reported(t, schedule[|schedule| - 1])
  }

  lemma {:induction false} EachReported(t: seq<TeamStanding>, schedule: seq<Match>)
    requires forall i :: 0 <= i < |schedule| ==> Reported(t, schedule[i])
    ensures AllReported(t, schedule)
    decreases |schedule|
  {
    if schedule != [] {
      EachReported(t, schedule[..|schedule| - 1]);
    }
  }

  /** What one match adds to the team's counters, as the dashboard counts
      it. */
  function RecordDelta(m: Match, teamName: string): Tally
  {
    var w, l := if WonBy(m, teamName) then 1 else 0, if LostBy(m, teamName) then 1 else 0;
    Tally(w + l, w, l, MapDelta(m, teamName), RoundDelta(m, teamName))
  }

  /** What a decided match between two different teams adds to the
      team's record: side A's result and margins, side B's mirrored, or
      nothing when the team is on neither side. */
  lemma DecidedDelta(m: Match, teamName: string)
    requires m.teamA.name != m.teamB.name && m.maps.Some? && m.winner.Some?
    requires m.winner.value.name == m.teamA.name || m.winner.value.name == m.teamB.name
    ensures var aWon, maps := m.winner.value.name == m.teamA.name, m.maps.value;
      RecordDelta(m, teamName)
      == if m.teamA.name == teamName then
           Tally(1, if aWon then 1 else 0, if aWon then 0 else 1, MapMargin(maps), RoundMargin(maps))
         else if m.teamB.name == teamName then
           Tally(1, if aWon then 0 else 1, if aWon then 1 else 0, -MapMargin(maps), -RoundMargin(maps))
         else Zero
  {
    var maps := m.maps.value;
    var isTeamA, isTeamB := m.teamA.name == teamName, m.teamB.name == teamName;
    MapsSplit(maps);
    TeamMapsSide(maps, isTeamA, isTeamB);
    TeamRoundsSide(maps, isTeamA, isTeamB);
  }

  /** For a reported match, the league table moves the team's entry by
      exactly what the dashboard counts. */
  lemma MatchStep(t: seq<TeamStanding>, m: Match, teamName: string, k: nat, r: seq<TeamStanding>)
    requires IndexOfName(t, teamName) == Some(k)
    requires Reported(t, m)
    requires r == ApplyMatch(t, m)
    ensures k < |r|
    ensures Counters(r[k]) == Plus(Counters(t[k]), RecordDelta(m, teamName))
  {
    if Counted(t, m) {
      CountedStep(t, m, teamName, k);
    } else {
      assert m.winner.None?;
      assert RecordDelta(m, teamName) == Zero;
      assert r == t;
    }
  }

  /** The decided case of `MatchStep`: the team's entry is side A's,
      side B's or untouched. */
  lemma CountedStep(t: seq<TeamStanding>, m: Match, teamName: string, k: nat)
    requires IndexOfName(t, teamName) == Some(k)
    requires Reported(t, m) && Counted(t, m)
    ensures k < |ApplyMatch(t, m)|
    ensures Counters(ApplyMatch(t, m)[k]) == Plus(Counters(t[k]), RecordDelta(m, teamName))
  {
    ApplyMatchAt(t, m, k);
    ShareIsDelta(t, m, teamName, k);
  }

  /** The league table's share for the team's entry is what the dashboard
      counts for the team. */
  lemma ShareIsDelta(t: seq<TeamStanding>, m: Match, teamName: string, k: nat)
    requires IndexOfName(t, teamName) == Some(k)
    requires Reported(t, m) && Counted(t, m)
    ensures EntryShare(t, m, k) == RecordDelta(m, teamName)
  {
    var a, b := IndexOfName(t, m.teamA.name).value, IndexOfName(t, m.teamB.name).value;
    DecidedDelta(m, teamName);
    if m.teamA.name == teamName {
      assert a == k;
    } else if m.teamB.name == teamName {
      assert b == k;
    } else {
      assert a != k && b != k;
    }
  }

  /** The dashboard's record as counters: wins plus losses played. */
  function Record(schedule: seq<Match>, teamName: string): Tally
  {
    var w, l := Wins(schedule, teamName), Losses(schedule, teamName);
    Tally(w + l, w, l, MapDifferential(schedule, teamName), RoundDifferential(schedule, teamName))
  }

  lemma RecordOfLast(schedule: seq<Match>, teamName: string)
    requires schedule != []
    ensures Record(schedule, teamName)
         == Plus(Record(schedule[..|schedule| - 1], teamName), RecordDelta(schedule[|schedule| - 1], teamName))
  {
  }

  /** Over a whole schedule of reported matches, the team's entry in the
      tallied table moves by the dashboard's record: its wins, its
      losses, their sum as matches played, and both differentials. */
  lemma {:induction false} RecordMatchesTally(t: seq<TeamStanding>, schedule: seq<Match>, teamName: string, k: nat)
    requires IndexOfName(t, teamName) == Some(k)
    requires AllReported(t, schedule)
    ensures k < |TallyAll(t, schedule)|
    ensures Counters(TallyAll(t, schedule)[k]) == Plus(Counters(t[k]), Record(schedule, teamName))
    decreases |schedule|
  {
    if schedule != [] {
      var init, m := schedule[..|schedule| - 1], schedule[|schedule| - 1];
      RecordMatchesTally(t, init, teamName, k);
      var before := TallyAll(t, init);
      SameTeamsSameIndex(t, before, teamName);
      SameTeamsSameIndex(t, before, m.teamA.name);
      SameTeamsSameIndex(t, before, m.teamB.name);
      var after := TallyAll(t, schedule);
      MatchStep(before, m, teamName, k, after);
      RecordOfLast(schedule, teamName);
      PlusTwice(Counters(t[k]), Counters(before[k]), Counters(after[k]), Record(init, teamName), RecordDelta(m, teamName));
    }
  }

  lemma PlusTwice(c0: Tally, c1: Tally, c2: Tally, x: Tally, d: Tally)
    requires c1 == Plus(c0, x) && c2 == Plus(c1, d)
    ensures c2 == Plus(c0, Plus(x, d))
  {
  }

  /** The dashboard and the league table agree: when every match of the
      schedule is reported, the team's standing shows the dashboard's
      wins, losses and differentials, and wins plus losses as matches
      played. */
  lemma DashboardAgreesWithStandings(allTeams: seq<Team>, schedule: seq<Match>, teamName: string,
                                     st: seq<TeamStanding>, j: nat)
    requires st == StandingsOf(allTeams, schedule)
    requires j < |st| && st[j].team.name == teamName
    requires forall i :: 0 <= i < |schedule| ==> Reported(InitialTable(allTeams), schedule[i])
    ensures st[j].wins == Wins(schedule, teamName) && st[j].losses == Losses(schedule, teamName)
    ensures st[j].matchesPlayed == Wins(schedule, teamName) + Losses(schedule, teamName)
    ensures st[j].mapDifferential == MapDifferential(schedule, teamName)
    ensures st[j].roundDifferential == RoundDifferential(schedule, teamName)
  {
    var init := InitialTable(allTeams);
    var tallied := TallyAll(init, schedule);
    InitialTableEntries(allTeams);
    RankFrom(tallied, st);
    var i :| 0 <= i < |tallied| && st[j] == tallied[i].(winRate := WinRate(tallied[i]), rank := j + 1);
    assert init[i].team.name == teamName;
    var k := IndexOfName(init, teamName).value;
    assert tallied[k].team.name == teamName;
    InitialTableCovers(allTeams);
    assert i == k;
    EachReported(init, schedule);
    RecordMatchesTally(init, schedule, teamName, k);
    assert init[k] == Fresh(init[k].team);
  }
}
