/** The league table of src/components/StandingsView.tsx: one standing per
    team name, filled from the decided matches of the schedule, then ranked
    by wins, win rate, map differential and round differential. */
module Standings {
  import opened Types
  import Sorting

  datatype TeamStanding = TeamStanding(
    rank: int,
    team: Team,
    wins: int,
    losses: int,
    matchesPlayed: int,
    mapDifferential: int,
    roundDifferential: int,
    winRate: real)

  /** The five counters a match moves, as one value. */
  datatype Tally = Tally(played: int, wins: int, losses: int, maps: int, rounds: int)

  const Zero := Tally(0, 0, 0, 0, 0)

  function Plus(a: Tally, b: Tally): Tally
  {
    Tally(a.played + b.played, a.wins + b.wins, a.losses + b.losses, a.maps + b.maps, a.rounds + b.rounds)
  }

  function Counters(s: TeamStanding): Tally
  {
    Tally(s.matchesPlayed, s.wins, s.losses, s.mapDifferential, s.roundDifferential)
  }

  /** A standing with its counters moved by `d`. */
  function Add(s: TeamStanding, d: Tally): TeamStanding
  {
    s.(matchesPlayed := s.matchesPlayed + d.played, wins := s.wins + d.wins, losses := s.losses + d.losses,
       mapDifferential := s.mapDifferential + d.maps, roundDifferential := s.roundDifferential + d.rounds)
  }

  /** The counters of entry `k` moved by `d`. */
  function Bump(t: seq<TeamStanding>, k: nat, d: Tally): seq<TeamStanding>
    requires k < |t|
  {
    t[k := Add(t[k], d)]
  }

  /** A new entry: everything zero. */
  function Fresh(team: Team): TeamStanding
  {
    TeamStanding(0, team, 0, 0, 0, 0, 0, 0.0)
  }

  // ---------------------------------------------------------------------
  // The table keyed by team name
  // ---------------------------------------------------------------------

  /** The position of the table entry of that name, if any. */
  function IndexOfName(t: seq<TeamStanding>, name: string): (r: Option<nat>)
    ensures r.None? <==> forall k :: 0 <= k < |t| ==> t[k].team.name != name
    ensures r.Some? ==> r.value < |t| && t[r.value].team.name == name
                        && forall j :: 0 <= j < r.value ==> t[j].team.name != name
  {
    if t == [] then None
    else if t[0].team.name == name then Some(0)
    else
      var r := IndexOfName(t[1..], name);
      if r.Some? then
        assert forall j :: 1 <= j <= r.value ==> t[j] == t[1..][j - 1];
        Some(r.value + 1)
      else
        assert forall k :: 1 <= k < |t| ==> t[k] == t[1..][k - 1];
        None
  }

  /** No two entries share a team name. */
  predicate DistinctNames(t: seq<TeamStanding>)
  {
    forall i, j :: 0 <= i < j < |t| ==> t[i].team.name != t[j].team.name
  }

  /** Same length and the same teams in the same places. */
  predicate SameTeams(t: seq<TeamStanding>, u: seq<TeamStanding>)
  {
    |t| == |u| && forall k :: 0 <= k < |t| ==> t[k].team == u[k].team
  }

  lemma {:induction false} SameTeamsSameIndex(t: seq<TeamStanding>, u: seq<TeamStanding>, name: string)
    requires SameTeams(t, u)
    ensures IndexOfName(t, name) == IndexOfName(u, name)
  {
    if t != [] && t[0].team.name != name {
      assert u[0].team == t[0].team;
      assert SameTeams(t[1..], u[1..]) by {
        forall k | 0 <= k < |t| - 1 ensures t[1..][k].team == u[1..][k].team {
          assert t[k + 1].team == u[k + 1].team;
        }
      }
      SameTeamsSameIndex(t[1..], u[1..], name);
    }
  }

  /** The table with a fresh entry for the team: a name already present
      keeps its place and gets the fresh entry; a new name goes last. */
  function Put(t: seq<TeamStanding>, team: Team): seq<TeamStanding>
  {
    match IndexOfName(t, team.name)
    case Some(k) => t[k := Fresh(team)]
    case None => t + [Fresh(team)]
  }

  /** The table after the initialising pass over `teams`. */
  function InitialTable(teams: seq<Team>): seq<TeamStanding>
    decreases |teams|
  {
    if teams == [] then [] else Put(InitialTable(teams[..|teams| - 1]), teams[|teams| - 1])
  }

  /** After `Put`, a name is in the table iff it was before or it is
      the new team's. */
  lemma PutFinds(t: seq<TeamStanding>, team: Team, name: string)
    ensures IndexOfName(Put(t, team), name).Some? <==> IndexOfName(t, name).Some? || name == team.name
  {
    var r := Put(t, team);
    match IndexOfName(t, team.name)
    case Some(k) =>
      assert r[k].team.name == team.name;
      if IndexOfName(t, name).Some? {
        var j := IndexOfName(t, name).value;
        assert r[j].team.name == name;
      }
      if IndexOfName(r, name).Some? {
        var j := IndexOfName(r, name).value;
        if j != k {
          assert t[j].team.name == name;
        }
      }
    case None =>
      assert r[|t|].team.name == team.name;
      if IndexOfName(t, name).Some? {
        var j := IndexOfName(t, name).value;
        assert r[j].team.name == name;
      }
      if IndexOfName(r, name).Some? {
        var j := IndexOfName(r, name).value;
        if j != |t| {
          assert t[j].team.name == name;
        }
      }
  }

  lemma PutKeepsDistinct(t: seq<TeamStanding>, team: Team)
    requires DistinctNames(t)
    ensures DistinctNames(Put(t, team))
  {
  }

  /** The initial table has one entry per distinct name of `teams`. */
  lemma {:induction false} InitialTableCovers(teams: seq<Team>)
    ensures DistinctNames(InitialTable(teams))
    ensures forall name :: IndexOfName(InitialTable(teams), name).Some? <==> exists i :: 0 <= i < |teams| && teams[i].name == name
    decreases |teams|
  {
    if teams != [] {
      var init, last := teams[..|teams| - 1], teams[|teams| - 1];
      InitialTableCovers(init);
      PutKeepsDistinct(InitialTable(init), last);
      forall name
        ensures IndexOfName(InitialTable(teams), name).Some? <==> exists i :: 0 <= i < |teams| && teams[i].name == name
      {
        PutFinds(InitialTable(init), last, name);
        if exists i :: 0 <= i < |teams| && teams[i].name == name {
          var i :| 0 <= i < |teams| && teams[i].name == name;
          if i < |init| {
            assert init[i].name == name;
          }
        }
        if exists i :: 0 <= i < |init| && init[i].name == name {
          var i :| 0 <= i < |init| && init[i].name == name;
          assert teams[i].name == name;
        }
      }
    }
  }

  /** Every entry of the initial table is zeroed and holds a team of
      `teams`, and there are no more entries than teams. */
  lemma {:induction false} InitialTableEntries(teams: seq<Team>)
    ensures |InitialTable(teams)| <= |teams|
    ensures forall k :: 0 <= k < |InitialTable(teams)| ==>
      InitialTable(teams)[k] == Fresh(InitialTable(teams)[k].team) && InitialTable(teams)[k].team in teams
    decreases |teams|
  {
    if teams != [] {
      var init, last := teams[..|teams| - 1], teams[|teams| - 1];
      InitialTableEntries(init);
      var prev := InitialTable(init);
      var r := InitialTable(teams);
      assert r == Put(prev, last);
      forall k | 0 <= k < |r| ensures r[k] == Fresh(r[k].team) && r[k].team in teams {
        if r[k].team != last {
          assert k < |prev| && r[k] == prev[k];
          var i :| 0 <= i < |init| && init[i] == prev[k].team;
          assert teams[i] == init[i];
        }
      }
    }
  }

  // ---------------------------------------------------------------------
  // Crediting one match
  // ---------------------------------------------------------------------

  /** How many of the maps that side won. */
  function MapsWonBy(maps: seq<MapResult>, side: TeamTag): (n: nat)
    ensures n <= |maps|
    decreases |maps|
  {
    if maps == [] then 0
    else MapsWonBy(maps[..|maps| - 1], side) + (if maps[|maps| - 1].winner == side then 1 else 0)
  }

  /** Team A's rounds minus team B's, summed over the maps. */
  function RoundMargin(maps: seq<MapResult>): int
    decreases |maps|
  {
    if maps == [] then 0
    else RoundMargin(maps[..|maps| - 1]) + (maps[|maps| - 1].teamAScore - maps[|maps| - 1].teamBScore)
  }

  /** Decided (winner and maps present) and both teams in the table. */
  predicate Counted(t: seq<TeamStanding>, m: Match)
  {
    m.winner.Some? && m.maps.Some?
    && IndexOfName(t, m.teamA.name).Some? && IndexOfName(t, m.teamB.name).Some?
  }

  /** One match played, and a win or a loss. */
  function ResultShare(won: bool): Tally
  {
    Tally(1, if won then 1 else 0, if won then 0 else 1, 0, 0)
  }

  function MapShare(margin: int): Tally
  {
    Tally(0, 0, 0, margin, 0)
  }

  function RoundShare(margin: int): Tally
  {
    Tally(0, 0, 0, 0, margin)
  }

  /** Entry `a` moved by `x`, then entry `b` by `y`; when they are the
      same entry it is moved by both. */
  function CreditPair(t: seq<TeamStanding>, a: nat, b: nat, x: Tally, y: Tally): seq<TeamStanding>
    requires a < |t| && b < |t|
  {
    Bump(Bump(t, a, x), b, y)
  }

  /** Wins and losses add up to matches played, none negative. */
  predicate Balanced(s: TeamStanding)
  {
    s.wins >= 0 && s.losses >= 0 && s.wins + s.losses == s.matchesPlayed
  }

  /** A's maps won minus B's. */
  function MapMargin(maps: seq<MapResult>): int
  {
    MapsWonBy(maps, TeamA) - MapsWonBy(maps, TeamB)
  }

  /** What a decided match adds to one side: a match played, the win or
      the loss, and that side's map and round margins. */
  function SideShare(won: bool, mapMargin: int, roundMargin: int): Tally
  {
    Tally(1, if won then 1 else 0, if won then 0 else 1, mapMargin, roundMargin)
  }

  /** A decided match between entries `a` and `b`: side A gets its
      result and margins, side B its result and the negated margins. */
  function MatchCredit(t: seq<TeamStanding>, a: nat, b: nat, aWon: bool, maps: seq<MapResult>): (r: seq<TeamStanding>)
    requires a < |t| && b < |t|
    ensures SameTeams(t, r)
  {
    CreditPair(t, a, b, SideShare(aWon, MapMargin(maps), RoundMargin(maps)),
               SideShare(!aWon, -MapMargin(maps), -RoundMargin(maps)))
  }

  /** A side's share is its result, map and round shares together. */
  lemma SharesAdd(won: bool, mapMargin: int, roundMargin: int)
    ensures Plus(Plus(ResultShare(won), MapShare(mapMargin)), RoundShare(roundMargin)) == SideShare(won, mapMargin, roundMargin)
  {
  }

  /** Three passes over the same two entries move them as one pass by the
      sums: the view's result, map and round passes amount to
      `MatchCredit`. */
  lemma PassesCompose(t: seq<TeamStanding>, a: nat, b: nat, x1: Tally, y1: Tally, x2: Tally, y2: Tally,
                      x3: Tally, y3: Tally)
    requires a < |t| && b < |t|
    ensures CreditPair(CreditPair(CreditPair(t, a, b, x1, y1), a, b, x2, y2), a, b, x3, y3)
         == CreditPair(t, a, b, Plus(Plus(x1, x2), x3), Plus(Plus(y1, y2), y3))
  {
    var u := CreditPair(CreditPair(CreditPair(t, a, b, x1, y1), a, b, x2, y2), a, b, x3, y3);
    var v := CreditPair(t, a, b, Plus(Plus(x1, x2), x3), Plus(Plus(y1, y2), y3));
    forall k | 0 <= k < |t| ensures u[k] == v[k] {
      if k == a && k == b {
        assert u[k] == Add(Add(Add(Add(Add(Add(t[k], x1), y1), x2), y2), x3), y3);
      }
    }
  }

  /** For two different entries, a pass moves the first by `x`, the
      second by `y`, and nothing else. */
  lemma PairEntries(t: seq<TeamStanding>, a: nat, b: nat, x: Tally, y: Tally)
    requires a < |t| && b < |t| && a != b
    ensures Counters(CreditPair(t, a, b, x, y)[a]) == Plus(Counters(t[a]), x)
    ensures Counters(CreditPair(t, a, b, x, y)[b]) == Plus(Counters(t[b]), y)
    ensures forall k :: 0 <= k < |t| && k != a && k != b ==> CreditPair(t, a, b, x, y)[k] == t[k]
  {
  }

  /** For two different entries: the winner gains a win, the loser a
      loss, both a match played; the map and round differentials move by
      opposite amounts; no other entry changes. */
  lemma MatchCreditEntries(t: seq<TeamStanding>, a: nat, b: nat, aWon: bool, maps: seq<MapResult>)
    requires a < |t| && b < |t| && a != b
    ensures Counters(MatchCredit(t, a, b, aWon, maps)[a])
         == Plus(Counters(t[a]), Tally(1, if aWon then 1 else 0, if aWon then 0 else 1, MapMargin(maps), RoundMargin(maps)))
    ensures Counters(MatchCredit(t, a, b, aWon, maps)[b])
         == Plus(Counters(t[b]), Tally(1, if aWon then 0 else 1, if aWon then 1 else 0, -MapMargin(maps), -RoundMargin(maps)))
    ensures forall k :: 0 <= k < |t| && k != a && k != b ==> MatchCredit(t, a, b, aWon, maps)[k] == t[k]
  {
    PairEntries(t, a, b, SideShare(aWon, MapMargin(maps), RoundMargin(maps)),
                SideShare(!aWon, -MapMargin(maps), -RoundMargin(maps)));
  }

  /** One match of the schedule: ignored unless it is counted (decided,
      both names in the table); A won when the winner bears A's name. */
  function ApplyMatch(t: seq<TeamStanding>, m: Match): (r: seq<TeamStanding>)
    ensures SameTeams(t, r)
    ensures !Counted(t, m) ==> r == t
  {
    if !Counted(t, m) then t
    else
      MatchCredit(t, IndexOfName(t, m.teamA.name).value, IndexOfName(t, m.teamB.name).value,
                  m.winner.value.name == m.teamA.name, m.maps.value)
  }

  /** What a counted match adds to entry `k`: side A's share, side B's,
      or nothing. */
  function EntryShare(t: seq<TeamStanding>, m: Match, k: nat): Tally
    requires Counted(t, m)
  {
    var a, b := IndexOfName(t, m.teamA.name).value, IndexOfName(t, m.teamB.name).value;
    var aWon, maps := m.winner.value.name == m.teamA.name, m.maps.value;
    if k == a then SideShare(aWon, MapMargin(maps), RoundMargin(maps))
    else if k == b then SideShare(!aWon, -MapMargin(maps), -RoundMargin(maps))
    else Zero
  }

  /** A counted match between two different teams moves each entry by
      its share. */
  lemma ApplyMatchAt(t: seq<TeamStanding>, m: Match, k: nat)
    requires Counted(t, m) && m.teamA.name != m.teamB.name && k < |t|
    ensures k < |ApplyMatch(t, m)|
    ensures Counters(ApplyMatch(t, m)[k]) == Plus(Counters(t[k]), EntryShare(t, m, k))
  {
    var a, b := IndexOfName(t, m.teamA.name).value, IndexOfName(t, m.teamB.name).value;
    var aWon, maps := m.winner.value.name == m.teamA.name, m.maps.value;
    PairEntries(t, a, b, SideShare(aWon, MapMargin(maps), RoundMargin(maps)),
                SideShare(!aWon, -MapMargin(maps), -RoundMargin(maps)));
    if k != a && k != b {
      assert Plus(Counters(t[k]), Zero) == Counters(t[k]);
    }
  }

  /** The table after crediting the matches of `schedule` in order. */
  function TallyAll(t: seq<TeamStanding>, schedule: seq<Match>): (r: seq<TeamStanding>)
    ensures SameTeams(t, r)
    decreases |schedule|
  {
    if schedule == [] then t
    else ApplyMatch(TallyAll(t, schedule[..|schedule| - 1]), schedule[|schedule| - 1])
  }

  /** Every entry stays balanced: each counted match gives one side a win
      and the other a loss along with one match played each. */
  lemma {:induction false} TallyBalanced(t: seq<TeamStanding>, schedule: seq<Match>)
    requires forall k :: 0 <= k < |t| ==> Balanced(t[k])
    ensures forall k :: 0 <= k < |TallyAll(t, schedule)| ==> Balanced(TallyAll(t, schedule)[k])
    decreases |schedule|
  {
    if schedule != [] {
      var before := TallyAll(t, schedule[..|schedule| - 1]);
      var m := schedule[|schedule| - 1];
      TallyBalanced(t, schedule[..|schedule| - 1]);
      if Counted(before, m) {
        CreditBalanced(before, IndexOfName(before, m.teamA.name).value, IndexOfName(before, m.teamB.name).value,
                       m.winner.value.name == m.teamA.name, m.maps.value);
      }
    }
  }

  lemma CreditBalanced(t: seq<TeamStanding>, a: nat, b: nat, aWon: bool, maps: seq<MapResult>)
    requires a < |t| && b < |t|
    requires forall k :: 0 <= k < |t| ==> Balanced(t[k])
    ensures forall k :: 0 <= k < |t| ==> Balanced(MatchCredit(t, a, b, aWon, maps)[k])
  {
    PairBalanced(t, a, b, SideShare(aWon, MapMargin(maps), RoundMargin(maps)),
                 SideShare(!aWon, -MapMargin(maps), -RoundMargin(maps)));
  }

  /** A move that adds as many matches as wins and losses keeps entries
      balanced. */
  lemma PairBalanced(t: seq<TeamStanding>, a: nat, b: nat, x: Tally, y: Tally)
    requires a < |t| && b < |t|
    requires forall k :: 0 <= k < |t| ==> Balanced(t[k])
    requires x.wins >= 0 && x.losses >= 0 && x.played == x.wins + x.losses
    requires y.wins >= 0 && y.losses >= 0 && y.played == y.wins + y.losses
    ensures forall k :: 0 <= k < |t| ==> Balanced(CreditPair(t, a, b, x, y)[k])
  {
    var r := CreditPair(t, a, b, x, y);
    forall k | 0 <= k < |t| ensures Balanced(r[k]) {
      assert Balanced(t[k]);
    }
  }

  /** How many matches of `schedule` count. */
  function CountedMatches(t: seq<TeamStanding>, schedule: seq<Match>): nat
    decreases |schedule|
  {
    if schedule == [] then 0
    else CountedMatches(t, schedule[..|schedule| - 1]) + (if Counted(t, schedule[|schedule| - 1]) then 1 else 0)
  }

  // ---------------------------------------------------------------------
  // Totals
  // ---------------------------------------------------------------------

  /** The counters of all entries added up. */
  function SumCounters(t: seq<TeamStanding>): Tally
  {
    SumTo(t, |t|)
  }

  /** The counters of the first `n` entries added up. */
  function SumTo(t: seq<TeamStanding>, n: nat): Tally
    requires n <= |t|
  {
    if n == 0 then Zero else Plus(SumTo(t, n - 1), Counters(t[n - 1]))
  }

  lemma SumBump(t: seq<TeamStanding>, k: nat, d: Tally)
    requires k < |t|
    ensures SumCounters(Bump(t, k, d)) == Plus(SumCounters(t), d)
  {
    SumToBump(t, k, d, |t|);
  }

  /** Moving entry `k` by `d` moves the sum of a prefix by `d` exactly
      when the prefix holds entry `k`. */
  lemma {:induction false} SumToBump(t: seq<TeamStanding>, k: nat, d: Tally, n: nat)
    requires k < |t| && n <= |t|
    ensures k < n ==> SumTo(Bump(t, k, d), n) == Plus(SumTo(t, n), d)
    ensures n <= k ==> SumTo(Bump(t, k, d), n) == SumTo(t, n)
    decreases n
  {
    if n > 0 {
      SumToBump(t, k, d, n - 1);
    }
  }

  lemma SumPair(t: seq<TeamStanding>, a: nat, b: nat, x: Tally, y: Tally)
    requires a < |t| && b < |t|
    ensures SumCounters(CreditPair(t, a, b, x, y)) == Plus(Plus(SumCounters(t), x), y)
  {
    SumBump(t, a, x);
    SumBump(Bump(t, a, x), b, y);
  }

  lemma SumOfFresh(t: seq<TeamStanding>)
    requires forall k :: 0 <= k < |t| ==> t[k] == Fresh(t[k].team)
    ensures SumCounters(t) == Zero
  {
    forall k | 0 <= k < |t| ensures Counters(t[k]) == Zero {
      assert t[k] == Fresh(t[k].team);
    }
    SumToZero(t, |t|);
  }

  lemma {:induction false} SumToZero(t: seq<TeamStanding>, n: nat)
    requires n <= |t|
    requires forall k :: 0 <= k < |t| ==> Counters(t[k]) == Zero
    ensures SumTo(t, n) == Zero
  {
    if n > 0 {
      SumToZero(t, n - 1);
    }
  }

  /** Crediting the schedule adds 2 played, 1 win and 1 loss per counted
      match to the totals, and nothing to the differentials: the two
      entries' increments cancel. */
  lemma {:induction false} TallyTotals(t: seq<TeamStanding>, schedule: seq<Match>)
    ensures SumCounters(TallyAll(t, schedule))
         == Plus(SumCounters(t), Tally(2 * CountedMatches(t, schedule), CountedMatches(t, schedule),
                                       CountedMatches(t, schedule), 0, 0))
    decreases |schedule|
  {
    if schedule != [] {
      var init, m := schedule[..|schedule| - 1], schedule[|schedule| - 1];
      var before := TallyAll(t, init);
      TallyTotals(t, init);
      CountedAgrees(t, before, m);
      ApplyTotals(before, m);
      if Counted(t, m) {
        TotalsStep(SumCounters(t), SumCounters(before), SumCounters(TallyAll(t, schedule)), CountedMatches(t, init));
      }
    }
  }

  /** Tables with the same teams in the same places count the same
      matches. */
  lemma CountedAgrees(t: seq<TeamStanding>, u: seq<TeamStanding>, m: Match)
    requires SameTeams(t, u)
    ensures Counted(u, m) == Counted(t, m)
  {
    SameTeamsSameIndex(t, u, m.teamA.name);
    SameTeamsSameIndex(t, u, m.teamB.name);
  }

  /** One match of the schedule adds the totals of a counted match, or
      nothing. */
  lemma ApplyTotals(t: seq<TeamStanding>, m: Match)
    ensures Counted(t, m) ==> SumCounters(ApplyMatch(t, m)) == Plus(SumCounters(t), Tally(2, 1, 1, 0, 0))
    ensures !Counted(t, m) ==> SumCounters(ApplyMatch(t, m)) == SumCounters(t)
  {
    if Counted(t, m) {
      CreditTotals(t, IndexOfName(t, m.teamA.name).value, IndexOfName(t, m.teamB.name).value,
                   m.winner.value.name == m.teamA.name, m.maps.value);
    }
  }

  lemma TotalsStep(s: Tally, before: Tally, after: Tally, c: int)
    requires before == Plus(s, Tally(2 * c, c, c, 0, 0))
    requires after == Plus(before, Tally(2, 1, 1, 0, 0))
    ensures after == Plus(s, Tally(2 * (c + 1), c + 1, c + 1, 0, 0))
  {
  }

  /** A decided match adds two matches played, one win and one loss to
      the league, and nothing to its differentials. */
  lemma CreditTotals(t: seq<TeamStanding>, a: nat, b: nat, aWon: bool, maps: seq<MapResult>)
    requires a < |t| && b < |t|
    ensures SumCounters(MatchCredit(t, a, b, aWon, maps)) == Plus(SumCounters(t), Tally(2, 1, 1, 0, 0))
  {
    SidesTotals(t, a, b, aWon, MapMargin(maps), RoundMargin(maps));
  }

  lemma SidesTotals(t: seq<TeamStanding>, a: nat, b: nat, aWon: bool, mapMargin: int, roundMargin: int)
    requires a < |t| && b < |t|
    ensures SumCounters(CreditPair(t, a, b, SideShare(aWon, mapMargin, roundMargin), SideShare(!aWon, -mapMargin, -roundMargin)))
         == Plus(SumCounters(t), Tally(2, 1, 1, 0, 0))
  {
    var x, y := SideShare(aWon, mapMargin, roundMargin), SideShare(!aWon, -mapMargin, -roundMargin);
    SumPair(t, a, b, x, y);
    SidesCancel(SumCounters(t), SumCounters(CreditPair(t, a, b, x, y)), aWon, mapMargin, roundMargin);
  }

  /** The two sides' shares add up to two matches played, one win, one
      loss and no margin. */
  lemma SidesCancel(before: Tally, after: Tally, aWon: bool, mapMargin: int, roundMargin: int)
    requires after == Plus(Plus(before, SideShare(aWon, mapMargin, roundMargin)), SideShare(!aWon, -mapMargin, -roundMargin))
    ensures after == Plus(before, Tally(2, 1, 1, 0, 0))
  {
  }

  /** Over the whole league, wins equal losses, every match played counts
      twice, and map and round differentials sum to zero. */
  lemma LeagueTotals(allTeams: seq<Team>, schedule: seq<Match>, totals: Tally)
    requires totals == SumCounters(TallyAll(InitialTable(allTeams), schedule))
    ensures totals.wins == totals.losses == CountedMatches(InitialTable(allTeams), schedule)
    ensures totals.played == 2 * totals.wins
    ensures totals.maps == 0 && totals.rounds == 0
  {
    var init := InitialTable(allTeams);
    var c := CountedMatches(init, schedule);
    InitialTableEntries(allTeams);
    SumOfFresh(init);
    TallyTotals(init, schedule);
    assert totals == Plus(Zero, Tally(2 * c, c, c, 0, 0));
    assert totals.wins == c && totals.losses == c && totals.played == 2 * c;
  }

  // ---------------------------------------------------------------------
  // Ranking
  // ---------------------------------------------------------------------

  /** The percentage of played matches won, or 0 before any match. */
  function WinRate(s: TeamStanding): (r: real)
    ensures Balanced(s) ==> 0.0 <= r <= 100.0
  {
    if s.matchesPlayed > 0 then
      var w, p := s.wins as real, s.matchesPlayed as real;
      DivideAtMostOne(w, p);
      w / p * 100.0
    else 0.0
  }

  lemma DivideAtMostOne(w: real, p: real)
    ensures 0.0 <= w <= p && p > 0.0 ==> 0.0 <= w / p <= 1.0
  {
    if 0.0 <= w <= p && p > 0.0 {
      assert w / p * p == w;
    }
  }

  /** The comparator's keys, most significant first. */
  function StandingKey(s: TeamStanding): seq<real>
  {
    [s.wins as real, s.winRate, s.mapDifferential as real, s.roundDifferential as real]
  }

  function StandingKeyed(t: seq<TeamStanding>): (r: seq<Sorting.Keyed<TeamStanding>>)
    ensures |r| == |t|
    ensures forall i :: 0 <= i < |r| ==> r[i] == Sorting.Keyed(StandingKey(t[i]), t[i])
  {
    if t == [] then [] else [Sorting.Keyed(StandingKey(t[0]), t[0])] + StandingKeyed(t[1..])
  }

  predicate KeyedByStanding(s: seq<Sorting.Keyed<TeamStanding>>)
  {
    forall x :: x in s ==> x.key == StandingKey(x.item)
  }

  lemma KeyedByStandingPermutation(a: seq<Sorting.Keyed<TeamStanding>>, b: seq<Sorting.Keyed<TeamStanding>>)
    requires KeyedByStanding(a) && multiset(a) == multiset(b)
    ensures KeyedByStanding(b)
  {
    forall x | x in b ensures x.key == StandingKey(x.item) {
      assert x in multiset(a);
    }
  }

  /** The comparator: more wins first, then the higher win rate, then the
      larger map differential, then the larger round differential. */
  predicate RanksAtOrAbove(a: TeamStanding, b: TeamStanding)
  {
    Sorting.RanksAbove(StandingKey(a), StandingKey(b))
  }

  /** Standing above another means at least as many wins. */
  lemma RanksAtOrAboveWins(a: TeamStanding, b: TeamStanding)
    requires RanksAtOrAbove(a, b)
    ensures a.wins >= b.wins
    ensures a.wins == b.wins ==> a.winRate >= b.winRate
  {
    var ka, kb := StandingKey(a), StandingKey(b);
    if ka[0] == kb[0] {
      assert Sorting.RanksAbove(ka[1..], kb[1..]);
    }
  }

  /** The entries with their win rates, best first. */
  function SortStandings(t: seq<TeamStanding>): (r: seq<TeamStanding>)
    ensures |r| == |t|
    ensures multiset(r) == multiset(t)
    ensures forall i, j :: 0 <= i < j < |r| ==> RanksAtOrAbove(r[i], r[j])
  {
    var keyed := StandingKeyed(t);
    assert Sorting.KeysOfLength(keyed, 4);
    var sorted := Sorting.SortDescending(keyed, 4);
    Sorting.SortItemsPermutation(keyed, 4);
    assert Sorting.Items(keyed) == t;
    KeyedByStandingPermutation(keyed, sorted);
    SortedByStanding(sorted);
    Sorting.Items(sorted)
  }

  lemma SortedByStanding(sorted: seq<Sorting.Keyed<TeamStanding>>)
    requires KeyedByStanding(sorted) && Sorting.Sorted(sorted)
    ensures forall i, j :: 0 <= i < j < |sorted| ==> RanksAtOrAbove(sorted[i].item, sorted[j].item)
  {
    forall i, j | 0 <= i < j < |sorted| ensures RanksAtOrAbove(sorted[i].item, sorted[j].item) {
      assert sorted[i] in sorted && sorted[j] in sorted;
    }
  }

  /** Every entry with its win rate filled in. */
  function WithWinRates(t: seq<TeamStanding>): (r: seq<TeamStanding>)
    ensures |r| == |t|
    ensures forall k :: 0 <= k < |t| ==> r[k] == t[k].(winRate := WinRate(t[k]))
  {
    if t == [] then [] else [t[0].(winRate := WinRate(t[0]))] + WithWinRates(t[1..])
  }

  /** Ranks by position: the entry at index k gets rank k + 1. */
  function AssignRanks(t: seq<TeamStanding>): (r: seq<TeamStanding>)
    ensures |r| == |t|
    ensures forall k :: 0 <= k < |t| ==> r[k] == t[k].(rank := k + 1)
  {
    seq(|t|, k requires 0 <= k < |t| => t[k].(rank := k + 1))
  }

  /** The ranked table of a tallied one. */
  function Rank(t: seq<TeamStanding>): seq<TeamStanding>
  {
    AssignRanks(SortStandings(WithWinRates(t)))
  }

  /** The standings of a league: the tallied table, ranked. */
  function StandingsOf(allTeams: seq<Team>, schedule: seq<Match>): seq<TeamStanding>
  {
    Rank(TallyAll(InitialTable(allTeams), schedule))
  }

  /** Top 8 make the playoffs. */
  function Playoffs(standings: seq<TeamStanding>): seq<TeamStanding>
  {
    if |standings| <= 8 then standings else standings[..8]
  }

  /** Everyone else is eliminated. */
  function Eliminated(standings: seq<TeamStanding>): seq<TeamStanding>
  {
    if |standings| <= 8 then [] else standings[8..]
  }

  lemma {:induction false} PermutationKeepsNamesDistinct(s: seq<TeamStanding>, t: seq<TeamStanding>)
    requires multiset(s) == multiset(t) && DistinctNames(t)
    ensures DistinctNames(s)
  {
    forall i, j | 0 <= i < j < |s| ensures s[i].team.name != s[j].team.name {
      assert s[i] in multiset(t) && s[j] in multiset(t);
      var p :| 0 <= p < |t| && t[p] == s[i];
      var q :| 0 <= q < |t| && t[q] == s[j];
      if s[i].team.name == s[j].team.name {
        assert p == q;
        assert multiset(s)[s[i]] >= 2 by {
          assert s == s[..i] + [s[i]] + s[i + 1..j] + [s[j]] + s[j + 1..];
        }
        NamesDistinctCountOne(t, s[i]);
      }
    }
  }

  lemma {:induction false} NamesDistinctCountOne(t: seq<TeamStanding>, x: TeamStanding)
    requires DistinctNames(t)
    ensures multiset(t)[x] <= 1
  {
    if t != [] {
      assert t == [t[0]] + t[1..];
      NamesDistinctCountOne(t[1..], x);
      if t[0] == x {
        assert x !in t[1..];
      }
    }
  }

  /** Ranking numbers the entries 1..n, best first: each ranks at or
      above the next and has at least as many wins. */
  lemma RankOrder(t: seq<TeamStanding>, st: seq<TeamStanding>)
    requires st == Rank(t)
    ensures |st| == |t|
    ensures forall k :: 0 <= k < |st| ==> st[k].rank == k + 1
    ensures forall i, j :: 0 <= i < j < |st| ==> RanksAtOrAbove(st[i], st[j]) && st[i].wins >= st[j].wins
  {
    var sorted := SortStandings(WithWinRates(t));
    forall i, j | 0 <= i < j < |st| ensures RanksAtOrAbove(st[i], st[j]) && st[i].wins >= st[j].wins {
      assert StandingKey(st[i]) == StandingKey(sorted[i]) && StandingKey(st[j]) == StandingKey(sorted[j]);
      RanksAtOrAboveWins(st[i], st[j]);
    }
  }

  /** Ranking only reorders the entries, filling in each one's win rate
      and rank: every ranked entry comes from an entry of the table... */
  lemma RankFrom(t: seq<TeamStanding>, st: seq<TeamStanding>)
    requires st == Rank(t)
    ensures forall k :: 0 <= k < |st| ==>
      exists j :: 0 <= j < |t| && st[k] == t[j].(winRate := WinRate(t[j]), rank := k + 1)
  {
    var rated := WithWinRates(t);
    var sorted := SortStandings(rated);
    forall k | 0 <= k < |st|
      ensures exists j :: 0 <= j < |t| && st[k] == t[j].(winRate := WinRate(t[j]), rank := k + 1)
    {
      assert sorted[k] in multiset(rated);
      var j :| 0 <= j < |rated| && rated[j] == sorted[k];
      assert st[k] == t[j].(winRate := WinRate(t[j]), rank := k + 1);
    }
  }

  /** ... and every team of the table is ranked. */
  lemma RankCovers(t: seq<TeamStanding>, st: seq<TeamStanding>)
    requires st == Rank(t)
    ensures forall j :: 0 <= j < |t| ==> exists k :: 0 <= k < |st| && st[k].team == t[j].team
  {
    var rated := WithWinRates(t);
    var sorted := SortStandings(rated);
    forall j | 0 <= j < |t| ensures exists k :: 0 <= k < |st| && st[k].team == t[j].team {
      assert rated[j] in multiset(sorted);
      var k :| 0 <= k < |sorted| && sorted[k] == rated[j];
      assert st[k].team == t[j].team;
    }
  }

  /** A name is in the ranked table iff it is in the table. */
  lemma RankNames(t: seq<TeamStanding>, st: seq<TeamStanding>)
    requires st == Rank(t)
    ensures forall name :: IndexOfName(st, name).Some? <==> IndexOfName(t, name).Some?
  {
    RankFrom(t, st);
    NamesFrom(t, st);
    RankCovers(t, st);
    NamesCovered(t, st);
  }

  lemma NamesFrom(t: seq<TeamStanding>, st: seq<TeamStanding>)
    requires forall k :: 0 <= k < |st| ==> exists j :: 0 <= j < |t| && st[k].team == t[j].team
    ensures forall name :: (exists k :: 0 <= k < |st| && st[k].team.name == name) ==> IndexOfName(t, name).Some?
  {
    forall name | exists k :: 0 <= k < |st| && st[k].team.name == name
      ensures IndexOfName(t, name).Some?
    {
      var k :| 0 <= k < |st| && st[k].team.name == name;
      var j :| 0 <= j < |t| && st[k].team == t[j].team;
      assert t[j].team.name == name;
    }
  }

  lemma NamesCovered(t: seq<TeamStanding>, st: seq<TeamStanding>)
    requires forall j :: 0 <= j < |t| ==> exists k :: 0 <= k < |st| && st[k].team == t[j].team
    ensures forall name :: IndexOfName(t, name).Some? ==> exists k :: 0 <= k < |st| && st[k].team.name == name
  {
    forall name | IndexOfName(t, name).Some?
      ensures exists k :: 0 <= k < |st| && st[k].team.name == name
    {
      var j := IndexOfName(t, name).value;
      var k :| 0 <= k < |st| && st[k].team == t[j].team;
      assert st[k].team.name == name;
    }
  }

  /** Ranking keeps team names distinct. */
  lemma RankDistinct(t: seq<TeamStanding>, st: seq<TeamStanding>)
    requires st == Rank(t) && DistinctNames(t)
    ensures DistinctNames(st)
  {
    var rated := WithWinRates(t);
    var sorted := SortStandings(rated);
    assert DistinctNames(rated);
    PermutationKeepsNamesDistinct(sorted, rated);
  }

  /** The ranked table of a league has one entry per distinct team name
      of `allTeams`. */
  lemma StandingsNames(allTeams: seq<Team>, schedule: seq<Match>, st: seq<TeamStanding>)
    requires st == StandingsOf(allTeams, schedule)
    ensures forall name :: IndexOfName(st, name).Some? <==> exists i :: 0 <= i < |allTeams| && allTeams[i].name == name
  {
    var init := InitialTable(allTeams);
    InitialTableCovers(allTeams);
    var tallied := TallyAll(init, schedule);
    RankNames(tallied, st);
    forall name
      ensures IndexOfName(st, name).Some? <==> exists i :: 0 <= i < |allTeams| && allTeams[i].name == name
    {
      SameTeamsSameIndex(init, tallied, name);
    }
  }

  /** Every entry of the ranked table holds a team of `allTeams` under a
      name no other entry has, is balanced (wins + losses = played) and
      has its win rate, within [0, 100]; there are at most as many entries
      as teams. */
  lemma StandingsFacts(allTeams: seq<Team>, schedule: seq<Match>, st: seq<TeamStanding>)
    requires st == StandingsOf(allTeams, schedule)
    ensures |st| <= |allTeams|
    ensures DistinctNames(st)
    ensures forall k :: 0 <= k < |st| ==> st[k].team in allTeams
    ensures forall k :: 0 <= k < |st| ==>
      Balanced(st[k]) && st[k].winRate == WinRate(st[k]) && 0.0 <= st[k].winRate <= 100.0
  {
    var tallied := TallyAll(InitialTable(allTeams), schedule);
    TalliedFacts(allTeams, schedule, tallied);
    RankOrder(tallied, st);
    RankDistinct(tallied, st);
    RankEntries(allTeams, tallied, st);
  }

  /** Before ranking: at most one entry per team, distinct names, each
      entry balanced and of a team of the league. */
  lemma TalliedFacts(allTeams: seq<Team>, schedule: seq<Match>, tallied: seq<TeamStanding>)
    requires tallied == TallyAll(InitialTable(allTeams), schedule)
    ensures |tallied| <= |allTeams|
    ensures DistinctNames(tallied)
    ensures forall k :: 0 <= k < |tallied| ==> tallied[k].team in allTeams && Balanced(tallied[k])
  {
    var init := InitialTable(allTeams);
    InitialTableCovers(allTeams);
    InitialTableEntries(allTeams);
    assert SameTeams(init, tallied);
    forall k | 0 <= k < |init| ensures Balanced(init[k]) {
      assert init[k] == Fresh(init[k].team);
    }
    TallyBalanced(init, schedule);
    forall i, j | 0 <= i < j < |tallied| ensures tallied[i].team.name != tallied[j].team.name {
      assert tallied[i].team == init[i].team && tallied[j].team == init[j].team;
    }
    forall k | 0 <= k < |tallied| ensures tallied[k].team in allTeams {
      assert tallied[k].team == init[k].team;
    }
  }

  /** Ranking carries each entry's team and counters over, and fills in
      its win rate. */
  lemma RankEntries(allTeams: seq<Team>, t: seq<TeamStanding>, st: seq<TeamStanding>)
    requires st == Rank(t)
    requires forall k :: 0 <= k < |t| ==> t[k].team in allTeams && Balanced(t[k])
    ensures forall k :: 0 <= k < |st| ==>
      st[k].team in allTeams && Balanced(st[k]) && st[k].winRate == WinRate(st[k])
  {
    RankFrom(t, st);
    forall k | 0 <= k < |st|
      ensures st[k].team in allTeams && Balanced(st[k]) && st[k].winRate == WinRate(st[k])
    {
      var j :| 0 <= j < |t| && st[k] == t[j].(winRate := WinRate(t[j]), rank := k + 1);
      assert Counters(st[k]) == Counters(t[j]);
    }
  }

  /** Top 8 go to the playoffs and everyone below is eliminated. */
  lemma PlayoffSplit(st: seq<TeamStanding>)
    requires forall k :: 0 <= k < |st| ==> st[k].rank == k + 1
    ensures Playoffs(st) + Eliminated(st) == st
    ensures |Playoffs(st)| == if |st| <= 8 then |st| else 8
    ensures forall s :: s in Playoffs(st) ==> 1 <= s.rank <= 8
    ensures forall s :: s in Eliminated(st) ==> s.rank > 8
  {
    forall s | s in Playoffs(st) ensures 1 <= s.rank <= 8 {
      var k :| 0 <= k < |Playoffs(st)| && Playoffs(st)[k] == s;
    }
    forall s | s in Eliminated(st) ensures s.rank > 8 {
      var k :| 0 <= k < |Eliminated(st)| && Eliminated(st)[k] == s;
      assert s == st[k + 8];
    }
  }

  // ---------------------------------------------------------------------
  // The computation
  // ---------------------------------------------------------------------

  lemma BumpZero(t: seq<TeamStanding>, a: nat, b: nat)
    requires a < |t| && b < |t|
    ensures Bump(Bump(t, a, Zero), b, Zero) == t
  {
    assert Add(t[a], Zero) == t[a];
  }

  /** One match played each, then the win to one side and the loss to
      the other. */
  method CreditResult(t: seq<TeamStanding>, a: nat, b: nat, aWon: bool) returns (r: seq<TeamStanding>)
    requires a < |t| && b < |t|
    ensures r == CreditPair(t, a, b, ResultShare(aWon), ResultShare(!aWon))
  {
    r := Bump(t, a, Tally(1, 0, 0, 0, 0));
    r := Bump(r, b, Tally(1, 0, 0, 0, 0));
    if aWon {
      r := Bump(r, a, Tally(0, 1, 0, 0, 0));
      r := Bump(r, b, Tally(0, 0, 1, 0, 0));
    } else {
      r := Bump(r, b, Tally(0, 1, 0, 0, 0));
      r := Bump(r, a, Tally(0, 0, 1, 0, 0));
    }
  }

  /** The map differential moves by the map margin, in opposite
      directions. */
  method CreditMapDifferential(t: seq<TeamStanding>, a: nat, b: nat, margin: int) returns (r: seq<TeamStanding>)
    requires a < |t| && b < |t|
    ensures r == CreditPair(t, a, b, MapShare(margin), MapShare(-margin))
  {
    r := Bump(t, a, Tally(0, 0, 0, margin, 0));
    r := Bump(r, b, Tally(0, 0, 0, -margin, 0));
  }

  /** Map by map, each side's round differential moves by its own score
      minus the other's. */
  method CreditRounds(t: seq<TeamStanding>, a: nat, b: nat, maps: seq<MapResult>) returns (r: seq<TeamStanding>)
    requires a < |t| && b < |t|
    ensures r == CreditPair(t, a, b, RoundShare(RoundMargin(maps)), RoundShare(-RoundMargin(maps)))
  {
    r := t;
    BumpZero(t, a, b);
    for i := 0 to |maps|
      invariant r == Bump(Bump(t, a, Tally(0, 0, 0, 0, RoundMargin(maps[..i]))), b, Tally(0, 0, 0, 0, -RoundMargin(maps[..i])))
    {
      assert maps[..i + 1][..i] == maps[..i];
      var teamARounds := maps[i].teamAScore - maps[i].teamBScore;
      var teamBRounds := maps[i].teamBScore - maps[i].teamAScore;
      r := Bump(r, a, Tally(0, 0, 0, 0, teamARounds));
      r := Bump(r, b, Tally(0, 0, 0, 0, teamBRounds));
    }
    assert maps[..|maps|] == maps;
  }

  /** Credits one match as the view does: skipped unless decided with both
      teams in the table, then results, map and round differentials. */
  method TallyMatch(table: seq<TeamStanding>, m: Match) returns (r: seq<TeamStanding>)
    ensures r == ApplyMatch(table, m)
  {
    if m.winner.None? || m.maps.None? {
      return table;
    }
    var foundA, foundB := IndexOfName(table, m.teamA.name), IndexOfName(table, m.teamB.name);
    if foundA.None? || foundB.None? {
      return table;
    }
    var a, b := foundA.value, foundB.value;
    var maps := m.maps.value;
    var aWon := m.winner.value.name == m.teamA.name;
    var teamAMaps: int, teamBMaps: int := MapsWonBy(maps, TeamA), MapsWonBy(maps, TeamB);
    var results := CreditResult(table, a, b, aWon);
    var withMaps := CreditMapDifferential(results, a, b, teamAMaps - teamBMaps);
    r := CreditRounds(withMaps, a, b, maps);
    PassesClose(table, a, b, aWon, maps, results, withMaps, r);
  }

  /** The result, map and round passes one after the other amount to
      `MatchCredit`. */
  lemma PassesMakeCredit(t: seq<TeamStanding>, a: nat, b: nat, aWon: bool, mapMargin: int, roundMargin: int)
    requires a < |t| && b < |t|
    ensures CreditPair(CreditPair(CreditPair(t, a, b, ResultShare(aWon), ResultShare(!aWon)),
                                  a, b, MapShare(mapMargin), MapShare(-mapMargin)),
                       a, b, RoundShare(roundMargin), RoundShare(-roundMargin))
         == CreditPair(t, a, b, SideShare(aWon, mapMargin, roundMargin), SideShare(!aWon, -mapMargin, -roundMargin))
  {
    PassesCompose(t, a, b, ResultShare(aWon), ResultShare(!aWon), MapShare(mapMargin), MapShare(-mapMargin),
                  RoundShare(roundMargin), RoundShare(-roundMargin));
    SharesAdd(aWon, mapMargin, roundMargin);
    SharesAdd(!aWon, -mapMargin, -roundMargin);
  }

  /** The three tables `TallyMatch` builds end at `MatchCredit`. */
  lemma PassesClose(t: seq<TeamStanding>, a: nat, b: nat, aWon: bool, maps: seq<MapResult>,
                    results: seq<TeamStanding>, withMaps: seq<TeamStanding>, r: seq<TeamStanding>)
    requires a < |t| && b < |t|
    requires results == CreditPair(t, a, b, ResultShare(aWon), ResultShare(!aWon))
    requires withMaps == CreditPair(results, a, b, MapShare(MapMargin(maps)), MapShare(-MapMargin(maps)))
    requires r == CreditPair(withMaps, a, b, RoundShare(RoundMargin(maps)), RoundShare(-RoundMargin(maps)))
    ensures r == MatchCredit(t, a, b, aWon, maps)
  {
    PassesMakeCredit(t, a, b, aWon, MapMargin(maps), RoundMargin(maps));
  }

  /** The view's computation: fill the table, credit every match, rank. */
  method ComputeStandings(allTeams: seq<Team>, schedule: seq<Match>) returns (standings: seq<TeamStanding>)
    ensures standings == StandingsOf(allTeams, schedule)
  {
    var table: seq<TeamStanding> := [];
    for i := 0 to |allTeams|
      invariant table == InitialTable(allTeams[..i])
    {
      assert allTeams[..i + 1][..i] == allTeams[..i];
      table := Put(table, allTeams[i]);
    }
    assert allTeams[..|allTeams|] == allTeams;
    for i := 0 to |schedule|
      invariant table == TallyAll(InitialTable(allTeams), schedule[..i])
    {
      assert schedule[..i + 1][..i] == schedule[..i];
      table := TallyMatch(table, schedule[i]);
    }
    assert schedule[..|schedule|] == schedule;
    standings := Rank(table);
  }
}
