/** Scrims (src/utils/scrimSimulator.ts): choosing practice partners from
    the league, rating a practice session, and the proficiency, stat and
    synergy gains it yields. Random draws come from an injected stream. */
module ScrimSimulator {
  import opened Types
  import Sorting

  datatype ScrimObjective =
    MacroPlay | SiteRetakes | SiteExecutes | UtilityUsage | LurkTimings |
    DefenseSetups | Communication | Trading | MapControl

  /** The objectives in the order the strength object lists them. */
  const AllObjectives: seq<ScrimObjective> :=
    [MacroPlay, SiteRetakes, SiteExecutes, UtilityUsage, LurkTimings,
     DefenseSetups, Communication, Trading, MapControl]

  function ObjectiveIndex(o: ScrimObjective): (i: nat)
    ensures i < |AllObjectives| && AllObjectives[i] == o
  {
    match o
    case MacroPlay => 0
    case SiteRetakes => 1
    case SiteExecutes => 2
    case UtilityUsage => 3
    case LurkTimings => 4
    case DefenseSetups => 5
    case Communication => 6
    case Trading => 7
    case MapControl => 8
  }

  /** The maps a scrim partner reports a strength on (the pool without Abyss). */
  const ScrimMaps: seq<MapName> :=
    [Ascent, Split, Haven, Bind, Icebox, Breeze, Fracture, Pearl, Lotus, Sunset]

  datatype ScrimOpponent = ScrimOpponent(
    teamId: string,
    teamName: string,
    teamShortName: string,
    region: Region,
    scrimQuality: real,
    objectiveStrengths: map<ScrimObjective, real>,
    mapStrengths: map<MapName, real>)

  datatype ScrimComposition = ScrimComposition(playerId: string, agent: Agent)

  datatype ScrimSession = ScrimSession(
    mapName: MapName,
    objective: ScrimObjective,
    opponent: ScrimOpponent,
    composition: seq<ScrimComposition>)

  datatype SynergyGain = SynergyGain(playerId: string, change: int)

  datatype PlayerImprovement = PlayerImprovement(
    playerId: string,
    playerName: string,
    agentProficiency: int,
    statImprovements: map<StatKey, int>,
    synergyGains: seq<SynergyGain>)

  datatype FeedbackTier = Excellent | Good | Productive | Challenging

  /** The feedback message: its tier, the partner named in it and the topic. */
  datatype ScrimFeedback = ScrimFeedback(tier: FeedbackTier, opponentName: string, topic: string)

  datatype ScrimResult = ScrimResult(
    session: ScrimSession,
    teamMapProficiency: int,
    objectiveProficiency: int,
    playerImprovements: seq<PlayerImprovement>,
    qualityRating: real,
    feedback: ScrimFeedback)

  // ---------------------------------------------------------------------
  // Choosing scrim partners
  // ---------------------------------------------------------------------

  /** Names of the teams in matches of weeks [currentWeek, currentWeek + 2],
      the player's own team excepted, in match order. */
  function UpcomingOpponentNames(upcoming: seq<Match>, playerTeamName: string, currentWeek: int): (r: seq<string>)
    ensures forall name :: name in r <==>
      name != playerTeamName &&
      exists m :: m in upcoming && currentWeek <= m.week <= currentWeek + 2 &&
        (name == m.teamA.name || name == m.teamB.name)
  {
    if upcoming == [] then []
    else
      var m := upcoming[0];
      var here := if currentWeek <= m.week <= currentWeek + 2 then [m.teamA.name, m.teamB.name] else [];
      var kept := if |here| == 2 then
          (if here[0] != playerTeamName then [here[0]] else []) + (if here[1] != playerTeamName then [here[1]] else [])
        else [];
      var rest := UpcomingOpponentNames(upcoming[1..], playerTeamName, currentWeek);
      assert forall m' :: m' in upcoming <==> m' == m || m' in upcoming[1..];
      kept + rest
  }

  /** A team that may be asked for a scrim: not the player's own and not
      about to be played. */
  predicate Eligible(t: Team, playerTeamName: string, upcomingNames: seq<string>)
  {
    t.name != playerTeamName && t.name !in upcomingNames
  }

  /** The eligible teams, in league order. */
  function ScrimPartners(teams: seq<Team>, playerTeamName: string, upcomingNames: seq<string>): (r: seq<Team>)
    ensures forall t :: t in r <==> t in teams && Eligible(t, playerTeamName, upcomingNames)
  {
    if teams == [] then []
    else
      var init := ScrimPartners(teams[..|teams| - 1], playerTeamName, upcomingNames);
      var last := teams[|teams| - 1];
      assert forall t :: t in teams <==> t in teams[..|teams| - 1] || t == last by {
        assert teams == teams[..|teams| - 1] + [last];
      }
      if Eligible(last, playerTeamName, upcomingNames) then init + [last] else init
  }

  /** The player's 9-stat average. */
  function PlayerAverage(p: Player): real
  {
    p.stats.Total() / 9.0
  }

  function SumOfAverages(ps: seq<Player>): real
  {
    if ps == [] then 0.0 else SumOfAverages(ps[..|ps| - 1]) + PlayerAverage(ps[|ps| - 1])
  }

  /** Mean of the non-reserve players' 9-stat averages; 50 for a team
      without any. */
  function TeamAverageStats(team: Team): (overall: real)
    ensures ActivePlayers(team.roster) == [] ==> overall == 50.0
  {
    var active := ActivePlayers(team.roster);
    if |active| == 0 then 50.0 else SumOfAverages(active) / |active| as real
  }

  lemma PlayerAverageWithin(p: Player, lo: real, hi: real)
    requires p.stats.Within(lo, hi)
    ensures lo <= PlayerAverage(p) <= hi
  {
    var s := p.stats;
    assert lo <= s.Get(Mechanics) <= hi && lo <= s.Get(Igl) <= hi && lo <= s.Get(Mental) <= hi;
    assert lo <= s.Get(Clutch) <= hi && lo <= s.Get(Vibes) <= hi && lo <= s.Get(Lurking) <= hi;
    assert lo <= s.Get(Entry) <= hi && lo <= s.Get(Support) <= hi && lo <= s.Get(Stamina) <= hi;
  }

  /** When every player's average lies in [lo, hi], the sum of n
      averages lies in [n * lo, n * hi]. */
  lemma {:induction false} SumOfAveragesWithin(ps: seq<Player>, lo: real, hi: real)
    requires forall i :: 0 <= i < |ps| ==> lo <= PlayerAverage(ps[i]) <= hi
    ensures |ps| as real * lo <= SumOfAverages(ps) <= |ps| as real * hi
  {
    if ps != [] {
      var init := ps[..|ps| - 1];
      assert forall i :: 0 <= i < |init| ==> init[i] == ps[i];
      SumOfAveragesWithin(init, lo, hi);
      var last := PlayerAverage(ps[|ps| - 1]);
      assert SumOfAverages(ps) == SumOfAverages(init) + last;
      AddWithin(|init| as real, |ps| as real, SumOfAverages(init), last, lo, hi);
    }
  }

  lemma AddWithin(n: real, m: real, s: real, a: real, lo: real, hi: real)
    requires m == n + 1.0 && n * lo <= s <= n * hi && lo <= a <= hi
    ensures m * lo <= s + a <= m * hi
  {
    assert m * lo == n * lo + lo && m * hi == n * hi + hi;
  }

  /** When every player's stats lie in [lo, hi] and 50 does too, so does
      the team average. */
  lemma TeamAverageWithin(team: Team, lo: real, hi: real)
    requires lo <= 50.0 <= hi
    requires forall p :: p in team.roster ==> p.stats.Within(lo, hi)
    ensures lo <= TeamAverageStats(team) <= hi
  {
    var active := ActivePlayers(team.roster);
    if |active| > 0 {
      ActiveAveragesWithin(team.roster, lo, hi);
      MeanWithin(active, lo, hi);
    }
  }

  /** The mean of averages in [lo, hi] lies in [lo, hi]. */
  lemma MeanWithin(ps: seq<Player>, lo: real, hi: real)
    requires |ps| > 0
    requires forall i :: 0 <= i < |ps| ==> lo <= PlayerAverage(ps[i]) <= hi
    ensures lo <= SumOfAverages(ps) / |ps| as real <= hi
  {
    SumOfAveragesWithin(ps, lo, hi);
    QuotientWithin(SumOfAverages(ps), |ps| as real, lo, hi);
  }

  lemma ActiveAveragesWithin(roster: seq<Player>, lo: real, hi: real)
    requires forall p :: p in roster ==> p.stats.Within(lo, hi)
    ensures forall i :: 0 <= i < |ActivePlayers(roster)| ==> lo <= PlayerAverage(ActivePlayers(roster)[i]) <= hi
  {
    var active := ActivePlayers(roster);
    forall i | 0 <= i < |active|
      ensures lo <= PlayerAverage(active[i]) <= hi
    {
      assert active[i] in roster;
      PlayerAverageWithin(active[i], lo, hi);
    }
  }

  lemma QuotientWithin(s: real, n: real, lo: real, hi: real)
    requires n > 0.0 && n * lo <= s <= n * hi
    ensures lo <= s / n <= hi
  {
    DivideMonotone(n * lo, s, n);
    DivideMonotone(s, n * hi, n);
    assert n * lo / n == lo && n * hi / n == hi;
  }

  lemma DivideMonotone(a: real, b: real, n: real)
    requires a <= b && n > 0.0
    ensures a / n <= b / n
  {
    assert b / n - a / n == (b - a) / n;
  }

  lemma {:induction false} ActivePlayersAppendReserve(roster: seq<Player>, p: Player)
    requires p.status == Reserve
    ensures ActivePlayers(roster + [p]) == ActivePlayers(roster)
  {
    if roster != [] {
      assert (roster + [p])[1..] == roster[1..] + [p];
      ActivePlayersAppendReserve(roster[1..], p);
    }
  }

  /** Reserves do not count towards the team average. */
  lemma TeamAverageIgnoresReserves(team: Team, p: Player)
    requires p.status == Reserve
    ensures TeamAverageStats(team.(roster := team.roster + [p])) == TeamAverageStats(team)
  {
    ActivePlayersAppendReserve(team.roster, p);
  }

  /** The partner's quality: the team average shifted by up to 10 either
      way, clamped to [40, 100]. */
  function ScrimQuality(average: real, draw: real): (q: real)
    ensures 40.0 <= q <= 100.0
    ensures 40.0 <= average - 10.0 && average + 10.0 <= 100.0 && 0.0 <= draw < 1.0 ==>
      average - 10.0 <= q < average + 10.0
  {
    MinR(100.0, MaxR(40.0, average + draw * 20.0 - 10.0))
  }

  /** Strength per objective: the base shifted by up to 10 either way,
      capped at 100, one draw per objective in objective order. */
  function ObjectiveStrengths(base: real, rand: DrawStream, cursor: nat): (r: map<ScrimObjective, real>)
    requires ValidStream(rand)
    ensures forall o :: o in r && r[o] == ShiftedStrength(base, rand(cursor + ObjectiveIndex(o)))
    ensures forall o :: r[o] <= 100.0 && MinR(100.0, base - 10.0) <= r[o]
    ensures forall o :: base + 10.0 <= 100.0 ==> r[o] < base + 10.0
  {
    var r := map o: ScrimObjective :: ShiftedStrength(base, rand(cursor + ObjectiveIndex(o)));
    ShiftedWithin(r, base, rand, cursor);
    r
  }

  lemma ShiftedWithin(r: map<ScrimObjective, real>, base: real, rand: DrawStream, cursor: nat)
    requires ValidStream(rand)
    requires forall o :: o in r && r[o] == ShiftedStrength(base, rand(cursor + ObjectiveIndex(o)))
    ensures forall o :: r[o] <= 100.0 && MinR(100.0, base - 10.0) <= r[o]
    ensures forall o :: base + 10.0 <= 100.0 ==> r[o] < base + 10.0
  {
    forall o ensures r[o] <= 100.0 && MinR(100.0, base - 10.0) <= r[o] && (base + 10.0 <= 100.0 ==> r[o] < base + 10.0) {
      var d := rand(cursor + ObjectiveIndex(o));
      assert r[o] == ShiftedStrength(base, d);
    }
  }

  /** The base shifted by a draw into [-10, 10), capped at 100. */
  function ShiftedStrength(base: real, draw: real): (r: real)
    requires 0.0 <= draw < 1.0
    ensures r <= 100.0 && MinR(100.0, base - 10.0) <= r
    ensures base + 10.0 <= 100.0 ==> r < base + 10.0
  {
    MinR(100.0, base + draw * 20.0 - 10.0)
  }

  /** The team has a non-zero practice level on the map. */
  predicate Practised(team: Team, m: MapName)
  {
    m in team.mapPracticeLevel && team.mapPracticeLevel[m] != 0.0
  }

  predicate MapStrengthFits(team: Team, m: MapName, strength: real)
  {
    if Practised(team, m) then strength == team.mapPracticeLevel[m]
    else 50.0 <= strength < 80.0
  }

  /** Strength per scrim map: the team's practice level, or a random value
      in [50, 80) (one draw) where it has none. */
  method GenerateMapStrengths(team: Team, rand: DrawStream, cursor: nat)
    returns (strengths: map<MapName, real>, next: nat)
    requires ValidStream(rand)
    ensures next >= cursor
    ensures forall m :: m in strengths <==> m in ScrimMaps
    ensures forall m :: m in strengths ==> MapStrengthFits(team, m, strengths[m])
  {
    strengths, next := map[], cursor;
    for i := 0 to |ScrimMaps|
      invariant next >= cursor
      invariant forall m :: m in strengths <==> m in ScrimMaps[..i]
      invariant forall m :: m in strengths ==> MapStrengthFits(team, m, strengths[m])
    {
      var m := ScrimMaps[i];
      assert ScrimMaps[..i + 1] == ScrimMaps[..i] + [m];
      if m in team.mapPracticeLevel && team.mapPracticeLevel[m] != 0.0 {
        strengths := strengths[m := team.mapPracticeLevel[m]];
      } else {
        strengths := strengths[m := 50.0 + rand(next) * 30.0];
        next := next + 1;
      }
    }
    assert ScrimMaps[..|ScrimMaps|] == ScrimMaps;
  }

  /** The opponent record built for a team: its identity copied, its
      quality and every objective strength the team average shifted by some
      draw in [0, 1), and its map strengths the team's practice or a draw in
      [50, 80). */
  ghost predicate DescribesTeam(o: ScrimOpponent, t: Team)
  {
    && o.teamId == t.id && o.teamName == t.name && o.teamShortName == t.shortName && o.region == t.region
    && (exists d :: 0.0 <= d < 1.0 && o.scrimQuality == ScrimQuality(TeamAverageStats(t), d))
    && (forall obj :: obj in o.objectiveStrengths && ObjectiveDrawn(o.objectiveStrengths[obj], TeamAverageStats(t)))
    && (forall m :: m in o.mapStrengths <==> m in ScrimMaps)
    && (forall m :: m in o.mapStrengths ==> MapStrengthFits(t, m, o.mapStrengths[m]))
  }

  /** An objective strength the base shifted by some draw in [0, 1). */
  ghost predicate ObjectiveDrawn(strength: real, base: real)
  {
    exists d :: 0.0 <= d < 1.0 && strength == ShiftedStrength(base, d)
  }

  /** What a description promises about an opponent: quality in [40, 100]
      and within 10 of the team average when that window fits; objective
      strengths at most 100, at least min(100, average - 10) and below
      average + 10 when that fits; map strengths the practice level or in
      [50, 80). */
  lemma DescribedWindow(o: ScrimOpponent, t: Team)
    requires DescribesTeam(o, t)
    ensures 40.0 <= o.scrimQuality <= 100.0
    ensures var a := TeamAverageStats(t);
      40.0 <= a - 10.0 && a + 10.0 <= 100.0 ==> a - 10.0 <= o.scrimQuality < a + 10.0
    ensures forall obj ::
      o.objectiveStrengths[obj] <= 100.0 && MinR(100.0, TeamAverageStats(t) - 10.0) <= o.objectiveStrengths[obj]
    ensures forall obj :: TeamAverageStats(t) + 10.0 <= 100.0 ==> o.objectiveStrengths[obj] < TeamAverageStats(t) + 10.0
    ensures forall m :: m in ScrimMaps ==>
      if Practised(t, m) then o.mapStrengths[m] == t.mapPracticeLevel[m] else 50.0 <= o.mapStrengths[m] < 80.0
  {
    var a := TeamAverageStats(t);
    var d :| 0.0 <= d < 1.0 && o.scrimQuality == ScrimQuality(a, d);
    forall obj
      ensures o.objectiveStrengths[obj] <= 100.0 && MinR(100.0, a - 10.0) <= o.objectiveStrengths[obj]
      ensures a + 10.0 <= 100.0 ==> o.objectiveStrengths[obj] < a + 10.0
    {
      assert ObjectiveDrawn(o.objectiveStrengths[obj], a);
      var e :| 0.0 <= e < 1.0 && o.objectiveStrengths[obj] == ShiftedStrength(a, e);
    }
  }

  /** Each strength `ObjectiveStrengths` gives is its base shifted by a
      draw in [0, 1). */
  lemma ObjectiveStrengthsDrawn(base: real, rand: DrawStream, cursor: nat)
    requires ValidStream(rand)
    ensures forall obj :: ObjectiveDrawn(ObjectiveStrengths(base, rand, cursor)[obj], base)
  {
    var r := ObjectiveStrengths(base, rand, cursor);
    forall obj ensures ObjectiveDrawn(r[obj], base) {
      var d := rand(cursor + ObjectiveIndex(obj));
      assert 0.0 <= d < 1.0 && r[obj] == ShiftedStrength(base, d);
    }
  }

  function QualityKeyed(opponents: seq<ScrimOpponent>): (r: seq<Sorting.Keyed<ScrimOpponent>>)
    ensures |r| == |opponents|
    ensures forall i :: 0 <= i < |r| ==> r[i] == Sorting.Keyed([opponents[i].scrimQuality], opponents[i])
  {
    if opponents == [] then []
    else [Sorting.Keyed([opponents[0].scrimQuality], opponents[0])] + QualityKeyed(opponents[1..])
  }

  /** Each key is the one-component vector of its item's quality. */
  predicate KeyedByQuality(s: seq<Sorting.Keyed<ScrimOpponent>>)
  {
    forall x :: x in s ==> x.key == [x.item.scrimQuality]
  }

  lemma KeyedByQualityPermutation(a: seq<Sorting.Keyed<ScrimOpponent>>, b: seq<Sorting.Keyed<ScrimOpponent>>)
    requires KeyedByQuality(a) && multiset(a) == multiset(b)
    ensures KeyedByQuality(b)
  {
    forall x | x in b ensures x.key == [x.item.scrimQuality] {
      assert x in multiset(a);
    }
  }

  lemma SortedByQuality(sorted: seq<Sorting.Keyed<ScrimOpponent>>)
    requires KeyedByQuality(sorted) && Sorting.Sorted(sorted)
    ensures forall i, j :: 0 <= i < j < |sorted| ==> sorted[i].item.scrimQuality >= sorted[j].item.scrimQuality
  {
    forall i, j | 0 <= i < j < |sorted| ensures sorted[i].item.scrimQuality >= sorted[j].item.scrimQuality {
      assert sorted[i] in sorted && sorted[j] in sorted;
      Sorting.RanksAboveSingle(sorted[i].item.scrimQuality, sorted[j].item.scrimQuality);
    }
  }

  /** The opponents best quality first: a reordering with non-increasing
      quality. */
  function SortByQuality(opponents: seq<ScrimOpponent>): (r: seq<ScrimOpponent>)
    ensures |r| == |opponents|
    ensures multiset(r) == multiset(opponents)
    ensures forall i, j :: 0 <= i < j < |r| ==> r[i].scrimQuality >= r[j].scrimQuality
  {
    var keyed := QualityKeyed(opponents);
    assert Sorting.KeysOfLength(keyed, 1);
    var sorted := Sorting.SortDescending(keyed, 1);
    Sorting.SortItemsPermutation(keyed, 1);
    assert Sorting.Items(keyed) == opponents;
    KeyedByQualityPermutation(keyed, sorted);
    SortedByQuality(sorted);
    Sorting.Items(sorted)
  }

  /** The loop over the league: one record per eligible team, in league
      order. */
  method CollectOpponents(allTeams: seq<Team>, playerTeamName: string, names: seq<string>,
                          rand: DrawStream, cursor: nat)
    returns (pushed: seq<ScrimOpponent>, next: nat)
    requires ValidStream(rand)
    ensures next >= cursor
    ensures |pushed| == |ScrimPartners(allTeams, playerTeamName, names)|
    ensures forall k :: 0 <= k < |pushed| ==> DescribesTeam(pushed[k], ScrimPartners(allTeams, playerTeamName, names)[k])
  {
    pushed := [];
    next := cursor;
    for i := 0 to |allTeams|
      invariant next >= cursor
      invariant |pushed| == |ScrimPartners(allTeams[..i], playerTeamName, names)|
      invariant forall k :: 0 <= k < |pushed| ==> DescribesTeam(pushed[k], ScrimPartners(allTeams[..i], playerTeamName, names)[k])
    {
      var team := allTeams[i];
      assert allTeams[..i + 1][..i] == allTeams[..i];
      if team.name != playerTeamName && team.name !in names {
        var average := TeamAverageStats(team);
        var quality := ScrimQuality(average, rand(next));
        var objectiveStrengths := ObjectiveStrengths(average, rand, next + 1);
        var mapStrengths, after := GenerateMapStrengths(team, rand, next + 10);
        var opponent := ScrimOpponent(team.id, team.name, team.shortName, team.region,
                                      quality, objectiveStrengths, mapStrengths);
        ObjectiveStrengthsDrawn(average, rand, next + 1);
        assert 0.0 <= rand(next) < 1.0;
        assert DescribesTeam(opponent, team);
        pushed := pushed + [opponent];
        next := after;
      }
    }
    assert allTeams[..|allTeams|] == allTeams;
  }

  /** One opponent record per eligible team, best practice partners first. */
  method GenerateScrimOpponents(allTeams: seq<Team>, playerTeamName: string, upcoming: seq<Match>,
                                currentWeek: int, rand: DrawStream, cursor: nat)
    returns (opponents: seq<ScrimOpponent>, next: nat)
    requires ValidStream(rand)
    ensures next >= cursor
    ensures forall i, j :: 0 <= i < j < |opponents| ==> opponents[i].scrimQuality >= opponents[j].scrimQuality
    ensures |opponents| == |ScrimPartners(allTeams, playerTeamName, UpcomingOpponentNames(upcoming, playerTeamName, currentWeek))|
    ensures forall o :: o in opponents ==>
      exists t :: t in ScrimPartners(allTeams, playerTeamName, UpcomingOpponentNames(upcoming, playerTeamName, currentWeek))
        && DescribesTeam(o, t)
    ensures forall t :: t in ScrimPartners(allTeams, playerTeamName, UpcomingOpponentNames(upcoming, playerTeamName, currentWeek)) ==>
      exists o :: o in opponents && DescribesTeam(o, t)
  {
    var names := UpcomingOpponentNames(upcoming, playerTeamName, currentWeek);
    var pushed;
    pushed, next := CollectOpponents(allTeams, playerTeamName, names, rand, cursor);
    var partners := ScrimPartners(allTeams, playerTeamName, names);
    opponents := SortByQuality(pushed);
    ReorderedDescriptions(pushed, opponents, partners);
  }

  /** Reordering the records one-per-partner keeps every record describing
      a partner and every partner described. */
  lemma ReorderedDescriptions(pushed: seq<ScrimOpponent>, opponents: seq<ScrimOpponent>, partners: seq<Team>)
    requires |pushed| == |partners| && multiset(opponents) == multiset(pushed)
    requires forall k :: 0 <= k < |pushed| ==> DescribesTeam(pushed[k], partners[k])
    ensures forall o :: o in opponents ==> exists t :: t in partners && DescribesTeam(o, t)
    ensures forall t :: t in partners ==> exists o :: o in opponents && DescribesTeam(o, t)
  {
    forall o | o in opponents ensures exists t :: t in partners && DescribesTeam(o, t) {
      assert o in multiset(pushed);
      var k :| 0 <= k < |pushed| && pushed[k] == o;
      assert partners[k] in partners;
    }
    forall t | t in partners ensures exists o :: o in opponents && DescribesTeam(o, t) {
      var k :| 0 <= k < |partners| && partners[k] == t;
      assert pushed[k] in multiset(opponents);
    }
  }

  // ---------------------------------------------------------------------
  // Rating a session
  // ---------------------------------------------------------------------

  /** The first rostered player with that id, if any. */
  function FindPlayer(roster: seq<Player>, id: string): (r: Option<Player>)
    ensures r.Some? ==> r.value in roster && r.value.id == id
    ensures r.None? <==> forall p :: p in roster ==> p.id != id
  {
    if roster == [] then None
    else if roster[0].id == id then Some(roster[0])
    else FindPlayer(roster[1..], id)
  }

  /** The player's proficiency on the agent, 0 when the pool lacks it. */
  function AgentProficiency(pool: seq<AgentEntry>, agent: Agent): (r: real)
    ensures (forall e :: e in pool ==> e.agent != agent) ==> r == 0.0
    ensures r != 0.0 ==> exists e :: e in pool && e.agent == agent && e.proficiency == r
  {
    if pool == [] then 0.0
    else if pool[0].agent == agent then pool[0].proficiency
    else AgentProficiency(pool[1..], agent)
  }

  /** The role a composition slot plays: the player's, or Flex when the
      player is not on the roster. */
  function SlotRole(roster: seq<Player>, c: ScrimComposition): Role
  {
    match FindPlayer(roster, c.playerId)
    case Some(p) => p.role
    case None => Flex
  }

  function SlotBonus(roster: seq<Player>, c: ScrimComposition): real
  {
    match FindPlayer(roster, c.playerId)
    case Some(p) => (AgentProficiency(p.agentPool, c.agent) - 50.0) * 0.2
    case None => 0.0
  }

  /** The agent-proficiency bonus summed over the composition. */
  function ProficiencyBonus(roster: seq<Player>, composition: seq<ScrimComposition>): real
  {
    if composition == [] then 0.0
    else ProficiencyBonus(roster, composition[..|composition| - 1]) + SlotBonus(roster, composition[|composition| - 1])
  }

  function RoleSet(roster: seq<Player>, composition: seq<ScrimComposition>): set<Role>
  {
    set c | c in composition :: SlotRole(roster, c)
  }

  /** At most five distinct roles exist. */
  lemma RoleSetAtMostFive(roster: seq<Player>, composition: seq<ScrimComposition>)
    ensures |RoleSet(roster, composition)| <= 5
  {
    var all := {Duelist, Initiator, Controller, Sentinel, Flex};
    forall r: Role ensures r in all {
      match r
      case Duelist =>
      case Initiator =>
      case Controller =>
      case Sentinel =>
      case Flex =>
    }
    assert RoleSet(roster, composition) <= all;
    assert |all| == 5;
    SubsetSize(RoleSet(roster, composition), all);
  }

  lemma SubsetSize<T>(a: set<T>, b: set<T>)
    requires a <= b
    ensures |a| <= |b|
    decreases a
  {
    if a != {} {
      var x :| x in a;
      SubsetSize(a - {x}, b - {x});
    }
  }

  /** Composition quality: 50, plus a fifth of each slot's agent
      proficiency above 50, plus 5 per distinct role, clamped to [0, 100]. */
  function CompositionScore(roster: seq<Player>, composition: seq<ScrimComposition>): (q: real)
    ensures 0.0 <= q <= 100.0
  {
    Clamp(50.0 + ProficiencyBonus(roster, composition) + 5.0 * |RoleSet(roster, composition)| as real, 0.0, 100.0)
  }

  /** The role bonus never exceeds 25 points. */
  lemma RoleBonusBounded(roster: seq<Player>, composition: seq<ScrimComposition>)
    ensures 0.0 <= 5.0 * |RoleSet(roster, composition)| as real <= 25.0
  {
    RoleSetAtMostFive(roster, composition);
  }

  method CalculateCompositionQuality(composition: seq<ScrimComposition>, playerTeam: Team)
    returns (quality: real)
    ensures quality == CompositionScore(playerTeam.roster, composition)
    ensures 0.0 <= quality <= 100.0
  {
    quality := 50.0;
    for i := 0 to |composition|
      invariant quality == 50.0 + ProficiencyBonus(playerTeam.roster, composition[..i])
    {
      assert composition[..i + 1][..i] == composition[..i];
      var player := FindPlayer(playerTeam.roster, composition[i].playerId);
      if player.Some? {
        var agentProf := AgentProficiency(player.value.agentPool, composition[i].agent);
        quality := quality + (agentProf - 50.0) * 0.2;
      }
    }
    assert composition[..|composition|] == composition;
    var uniqueRoles := |set c | c in composition :: SlotRole(playerTeam.roster, c)|;
    quality := quality + uniqueRoles as real * 5.0;
    quality := MaxR(0.0, MinR(100.0, quality));
  }

  /** The opponent's strength on the key, 50 when missing or zero. */
  function StrengthOr50<K>(strengths: map<K, real>, key: K): real
  {
    if key in strengths && strengths[key] != 0.0 then strengths[key] else 50.0
  }

  /** The session's base quality: the mean of the partner's objective
      strength, map strength and scrim quality. */
  function BaseQuality(session: ScrimSession): real
  {
    (StrengthOr50(session.opponent.objectiveStrengths, session.objective)
      + StrengthOr50(session.opponent.mapStrengths, session.mapName)
      + session.opponent.scrimQuality) / 3.0
  }

  /** Base and composition quality averaged; never above 100. */
  function QualityRating(baseQuality: real, compositionQuality: real): (q: real)
    ensures q <= 100.0
    ensures 0.0 <= baseQuality <= 100.0 && 0.0 <= compositionQuality <= 100.0 ==> 0.0 <= q
    ensures baseQuality <= compositionQuality ==> baseQuality <= q || q == 100.0
  {
    MinR(100.0, (baseQuality + compositionQuality) / 2.0)
  }

  /** quality/100 * scale * factor for a quality in [0, 100] and a factor
      in [0, 1.25): between 0 and 1.25 times the scale. */
  lemma ScaledGainWithin(quality: real, scale: real, factor: real)
    requires 0.0 <= scale && 0.0 <= factor < 1.25
    ensures 0.0 <= quality <= 100.0 ==> 0.0 <= quality / 100.0 * scale * factor <= scale * 1.25
  {
    if 0.0 <= quality <= 100.0 {
      var a := quality / 100.0;
      ProductMonotone(a, 1.0, scale);
      ProductMonotone(0.0, a, scale);
      var b := a * scale;
      assert 0.0 <= b <= scale;
      ProductMonotone(factor, 1.25, b);
      ProductMonotone(0.0, factor, b);
      ProductMonotone(b, scale, 1.25);
      assert 0.0 <= factor * b;
      assert factor * b <= 1.25 * b;
      assert b * 1.25 <= scale * 1.25;
      assert b * factor == factor * b;
      assert quality / 100.0 * scale * factor == b * factor;
    }
  }

  /** Map proficiency gain: 0 to 3 points, growing with quality. */
  function MapProficiencyGain(quality: real, draw: real): (gain: int)
    requires 0.0 <= draw < 1.0
    ensures 0.0 <= quality <= 100.0 ==> 0 <= gain <= 3
  {
    var factor := draw * 0.5 + 0.75;
    ScaledGainWithin(quality, 3.0, factor);
    (quality / 100.0 * 3.0 * factor).Floor
  }

  /** Objective proficiency gain: 0 to 6 points (a quality of 100 and a
      draw of 0.9 or more give 6), growing with quality. */
  function ObjectiveProficiencyGain(quality: real, draw: real): (gain: int)
    requires 0.0 <= draw < 1.0
    ensures 0.0 <= quality <= 100.0 ==> 0 <= gain <= 6
  {
    var factor := draw * 0.5 + 0.75;
    ScaledGainWithin(quality, 5.0, factor);
    (quality / 100.0 * 5.0 * factor).Floor
  }

  /** The objective gain does reach 6 points. */
  lemma ObjectiveGainReachesSix()
    ensures ObjectiveProficiencyGain(100.0, 0.9) == 6
  {
    assert 100.0 / 100.0 * 5.0 * (0.9 * 0.5 + 0.75) == 6.0;
  }

  lemma ProductMonotone(a1: real, a2: real, b: real)
    requires a1 <= a2 && 0.0 <= b
    ensures a1 * b <= a2 * b
  {
  }

  lemma FloorMonotone(x: real, y: real)
    requires x <= y
    ensures x.Floor <= y.Floor
  {
  }

  /** A better session never yields a smaller team gain. */
  lemma ProficiencyGainMonotone(q1: real, q2: real, draw: real)
    requires 0.0 <= draw < 1.0 && q1 <= q2
    ensures MapProficiencyGain(q1, draw) <= MapProficiencyGain(q2, draw)
    ensures ObjectiveProficiencyGain(q1, draw) <= ObjectiveProficiencyGain(q2, draw)
  {
    var f := draw * 0.5 + 0.75;
    var a1, a2 := q1 / 100.0, q2 / 100.0;
    var f3, f5 := 3.0 * f, 5.0 * f;
    ProductMonotone(a1, a2, f3);
    ProductMonotone(a1, a2, f5);
    assert a1 * 3.0 * f == a1 * f3 && a2 * 3.0 * f == a2 * f3;
    assert a1 * 5.0 * f == a1 * f5 && a2 * 5.0 * f == a2 * f5;
    FloorMonotone(a1 * 3.0 * f, a2 * 3.0 * f);
    FloorMonotone(a1 * 5.0 * f, a2 * 5.0 * f);
  }

  /** The player's potential, 75 when unset or zero. */
  function PotentialOr75(p: Player): real
  {
    if p.potential == 0.0 then 75.0 else p.potential
  }

  /** Agent proficiency gain: quality/100 times min(5, potential - current)
      times a factor in [0.5, 1), rounded down; at most 5, and for a
      proficiency not above potential, between 0 and the headroom. */
  function AgentProficiencyGain(quality: real, currentProf: real, potential: real, draw: real): (gain: int)
    requires 0.0 <= draw < 1.0
    ensures 0.0 <= quality <= 100.0 ==> gain <= 5
    ensures 0.0 <= quality <= 100.0 && currentProf <= potential ==>
      0 <= gain && gain as real <= potential - currentProf
  {
    var maxGain := MinR(5.0, potential - currentProf);
    var factor := draw * 0.5 + 0.5;
    GainFactorBounds(quality / 100.0, maxGain, factor);
    (quality / 100.0 * maxGain * factor).Floor
  }

  /** a * g * f for a in [0, 1] and f in [0, 1) lies between 0 and g
      (between g and 0 when g is negative). */
  lemma GainFactorBounds(a: real, g: real, f: real)
    requires 0.0 <= f < 1.0
    ensures 0.0 <= a <= 1.0 ==> a * g * f <= MaxR(0.0, g)
    ensures 0.0 <= a <= 1.0 && 0.0 <= g ==> 0.0 <= a * g * f
  {
    if 0.0 <= a <= 1.0 {
      if 0.0 <= g {
        NonNegativeGainFactor(a, g, f);
      } else {
        NegativeGainFactor(a, g, f);
      }
    }
  }

  lemma NonNegativeGainFactor(a: real, g: real, f: real)
    requires 0.0 <= a <= 1.0 && 0.0 <= g && 0.0 <= f < 1.0
    ensures 0.0 <= a * g * f <= g
  {
    ProductMonotone(a, 1.0, g);
    assert a * g <= 1.0 * g;
    ProductMonotone(0.0, a, g);
    assert 0.0 * g <= a * g;
    var b := a * g;
    assert 0.0 <= b <= g;
    ProductMonotone(f, 1.0, b);
    ProductMonotone(0.0, f, b);
    assert 0.0 <= f * b <= b;
    assert a * g * f == f * b;
  }

  lemma NegativeGainFactor(a: real, g: real, f: real)
    requires 0.0 <= a <= 1.0 && g < 0.0 && 0.0 <= f < 1.0
    ensures a * g * f <= 0.0
  {
    ProductMonotone(0.0, a, -g);
    assert a * g <= 0.0;
    ProductMonotone(0.0, f, -(a * g));
    assert a * g * f == -(f * -(a * g));
  }

  /** The stats a scrim objective can improve. */
  function ObjectiveStats(o: ScrimObjective): seq<StatKey>
  {
    match o
    case MacroPlay => [Igl, Mental, Support]
    case SiteRetakes => [Clutch, Mental, Support]
    case SiteExecutes => [Entry, Support, Mechanics]
    case UtilityUsage => [Support, Igl]
    case LurkTimings => [Lurking, Mental, Clutch]
    case DefenseSetups => [Support, Mental]
    case Communication => [Igl, Support, Vibes]
    case Trading => [Support, Vibes, Entry]
    case MapControl => [Igl, Lurking, Entry]
  }

  /** The objective's stats that are below the player's potential. */
  function BelowPotential(p: Player, keys: seq<StatKey>): (r: seq<StatKey>)
  {
    if keys == [] then []
    else
      var init := BelowPotential(p, keys[..|keys| - 1]);
      var last := keys[|keys| - 1];
      if p.stats.Get(last) < PotentialOr75(p) then init + [last] else init
  }

  /** The kept keys are exactly the listed keys below potential. */
  lemma {:induction false} BelowPotentialMembers(p: Player, keys: seq<StatKey>)
    ensures forall k :: k in BelowPotential(p, keys) <==> k in keys && p.stats.Get(k) < PotentialOr75(p)
  {
    if keys != [] {
      var init, last := keys[..|keys| - 1], keys[|keys| - 1];
      BelowPotentialMembers(p, init);
      assert keys == init + [last];
      assert forall k :: k in keys <==> k in init || k == last;
    }
  }

  /** The stat gains the source draws: the keys are visited in order, and
      each one below potential takes the next draw and gains 1 point when
      that draw is below 30% of quality/100. */
  function StatGains(p: Player, keys: seq<StatKey>, quality: real, rand: DrawStream, cursor: nat)
    : map<StatKey, int>
  {
    if keys == [] then map[]
    else
      var init := keys[..|keys| - 1];
      var last := keys[|keys| - 1];
      var gains := StatGains(p, init, quality, rand, cursor);
      if p.stats.Get(last) < PotentialOr75(p)
         && rand(cursor + |BelowPotential(p, init)|) < quality / 100.0 * 0.3
      then gains[last := 1]
      else gains
  }

  /** One more key: it takes the next draw only when below potential, and
      gains a point when that draw is under the chance. */
  lemma StatGainsStep(p: Player, keys: seq<StatKey>, i: nat, quality: real, rand: DrawStream, cursor: nat,
                      gains: map<StatKey, int>, n: nat)
    requires i < |keys|
    requires gains == StatGains(p, keys[..i], quality, rand, cursor)
    requires n == cursor + |BelowPotential(p, keys[..i])|
    ensures StatGains(p, keys[..i + 1], quality, rand, cursor)
            == if p.stats.Get(keys[i]) < PotentialOr75(p) && rand(n) < quality / 100.0 * 0.3
               then gains[keys[i] := 1] else gains
    ensures cursor + |BelowPotential(p, keys[..i + 1])|
            == if p.stats.Get(keys[i]) < PotentialOr75(p) then n + 1 else n
  {
    var prefix := keys[..i + 1];
    assert prefix[..i] == keys[..i] && prefix[i] == keys[i];
  }

  /** Only listed keys below potential gain, each by exactly 1 point. */
  lemma {:induction false} StatGainsWithin(p: Player, keys: seq<StatKey>, quality: real, rand: DrawStream, cursor: nat)
    ensures forall k :: k in StatGains(p, keys, quality, rand, cursor) ==>
      k in keys && p.stats.Get(k) < PotentialOr75(p) && StatGains(p, keys, quality, rand, cursor)[k] == 1
  {
    if keys != [] {
      var init := keys[..|keys| - 1];
      StatGainsWithin(p, init, quality, rand, cursor);
      assert forall k :: k in init ==> k in keys;
    }
  }

  /** Key i of the list gains exactly when it is below potential and its own
      draw, the one after those of the earlier keys below potential, falls
      under 30% of quality/100. */
  predicate GainDrawn(p: Player, keys: seq<StatKey>, quality: real, rand: DrawStream, cursor: nat, i: nat)
    requires i < |keys|
  {
    keys[i] in StatGains(p, keys, quality, rand, cursor) <==>
      p.stats.Get(keys[i]) < PotentialOr75(p)
      && rand(cursor + |BelowPotential(p, keys[..i])|) < quality / 100.0 * 0.3
  }

  /** With distinct keys, the gains are exactly the keys whose draws succeed. */
  lemma StatGainsDrawn(p: Player, keys: seq<StatKey>, quality: real, rand: DrawStream, cursor: nat)
    requires forall i, j :: 0 <= i < j < |keys| ==> keys[i] != keys[j]
    ensures forall i :: 0 <= i < |keys| ==> GainDrawn(p, keys, quality, rand, cursor, i)
  {
    forall i | 0 <= i < |keys|
      ensures GainDrawn(p, keys, quality, rand, cursor, i)
    {
      StatGainDrawn(p, keys, quality, rand, cursor, i);
    }
  }

  /** The same for one key, by induction on the keys after it. */
  lemma {:induction false} StatGainDrawn(p: Player, keys: seq<StatKey>, quality: real, rand: DrawStream, cursor: nat, i: nat)
    requires forall i, j :: 0 <= i < j < |keys| ==> keys[i] != keys[j]
    requires i < |keys|
    ensures GainDrawn(p, keys, quality, rand, cursor, i)
  {
    var n := |keys| - 1;
    if i < n {
      var init := keys[..n];
      assert forall a, b :: 0 <= a < b < |init| ==> init[a] != init[b];
      StatGainDrawn(p, init, quality, rand, cursor, i);
      EarlierGainKept(p, keys, quality, rand, cursor, i);
    } else {
      LastGainDrawn(p, keys, quality, rand, cursor);
    }
  }

  /** Appending a new key leaves an earlier key's gain as it was. */
  lemma EarlierGainKept(p: Player, keys: seq<StatKey>, quality: real, rand: DrawStream, cursor: nat, i: nat)
    requires i < |keys| - 1 && keys[i] != keys[|keys| - 1]
    requires GainDrawn(p, keys[..|keys| - 1], quality, rand, cursor, i)
    ensures GainDrawn(p, keys, quality, rand, cursor, i)
  {
    var init := keys[..|keys| - 1];
    assert init[i] == keys[i] && init[..i] == keys[..i];
    DrawnBeforeLast(p, init, keys, quality, rand, cursor, i);
    OtherKeyGain(p, keys, quality, rand, cursor, keys[i]);
  }

  /** An earlier key's gain among the keys before the last, read with the
      indices of all the keys. */
  lemma DrawnBeforeLast(p: Player, init: seq<StatKey>, keys: seq<StatKey>, quality: real, rand: DrawStream,
                        cursor: nat, i: nat)
    requires i < |init| && i < |keys| && init[i] == keys[i]
    requires |BelowPotential(p, init[..i])| == |BelowPotential(p, keys[..i])|
    requires GainDrawn(p, init, quality, rand, cursor, i)
    ensures keys[i] in StatGains(p, init, quality, rand, cursor) <==>
      p.stats.Get(keys[i]) < PotentialOr75(p)
      && rand(cursor + |BelowPotential(p, keys[..i])|) < quality / 100.0 * 0.3
  {
  }

  /** A key other than the last gains with all the keys exactly when it
      gains with the keys before the last. */
  lemma OtherKeyGain(p: Player, keys: seq<StatKey>, quality: real, rand: DrawStream, cursor: nat, k: StatKey)
    requires keys != [] && k != keys[|keys| - 1]
    ensures k in StatGains(p, keys, quality, rand, cursor) <==> k in StatGains(p, keys[..|keys| - 1], quality, rand, cursor)
  {
  }

  /** A new key's gain is decided by its own draw. */
  lemma LastGainDrawn(p: Player, keys: seq<StatKey>, quality: real, rand: DrawStream, cursor: nat)
    requires keys != [] && keys[|keys| - 1] !in keys[..|keys| - 1]
    ensures GainDrawn(p, keys, quality, rand, cursor, |keys| - 1)
  {
    var init := keys[..|keys| - 1];
    StatGainsWithin(p, init, quality, rand, cursor);
  }

  /** The stats an objective lists are distinct, so each of them gains
      exactly when its own draw succeeds. */
  lemma ObjectiveGainsDrawn(p: Player, objective: ScrimObjective, quality: real, rand: DrawStream, cursor: nat)
    ensures forall i :: 0 <= i < |ObjectiveStats(objective)| ==>
      GainDrawn(p, ObjectiveStats(objective), quality, rand, cursor, i)
  {
    StatGainsDrawn(p, ObjectiveStats(objective), quality, rand, cursor);
  }

  /** A session of quality 0 or less improves no stat: no draw is below 0. */
  lemma {:induction false} NoGainsWithoutQuality(p: Player, keys: seq<StatKey>, quality: real, rand: DrawStream, cursor: nat)
    requires ValidStream(rand) && quality <= 0.0
    ensures StatGains(p, keys, quality, rand, cursor) == map[]
  {
    if keys != [] {
      NoGainsWithoutQuality(p, keys[..|keys| - 1], quality, rand, cursor);
    }
  }

  /** One point in some of the objective's stats that are below potential:
      each such stat takes one draw and improves when the draw is below
      30% of quality/100. */
  method CalculateStatImprovements(player: Player, objective: ScrimObjective, quality: real,
                                   rand: DrawStream, cursor: nat)
    returns (improvements: map<StatKey, int>, next: nat)
    requires ValidStream(rand)
    ensures improvements == StatGains(player, ObjectiveStats(objective), quality, rand, cursor)
    ensures next == cursor + |BelowPotential(player, ObjectiveStats(objective))|
    ensures forall k :: k in improvements ==>
      k in ObjectiveStats(objective) && player.stats.Get(k) < PotentialOr75(player) && improvements[k] == 1
    ensures quality <= 0.0 ==> improvements == map[]
  {
    var effectiveQuality := quality / 100.0;
    var potential := PotentialOr75(player);
    var stats := ObjectiveStats(objective);
    improvements, next := map[], cursor;
    for i := 0 to |stats|
      invariant improvements == StatGains(player, stats[..i], quality, rand, cursor)
      invariant next == cursor + |BelowPotential(player, stats[..i])|
    {
      var stat := stats[i];
      StatGainsStep(player, stats, i, quality, rand, cursor, improvements, next);
      if player.stats.Get(stat) < potential {
        if rand(next) < effectiveQuality * 0.3 {
          improvements := improvements[stat := 1];
        }
        next := next + 1;
      }
    }
    assert stats[..|stats|] == stats;
    StatGainsWithin(player, stats, quality, rand, cursor);
    if quality <= 0.0 {
      NoGainsWithoutQuality(player, stats, quality, rand, cursor);
    }
  }

  /** Synergy with each other composition member: +1 on a draw below 0.5,
      otherwise +2 on a second draw below 0.3, otherwise nothing (and no
      entry). */
  function SynergyGains(composition: seq<ScrimComposition>, playerId: string, rand: DrawStream, cursor: nat)
    : (r: (seq<SynergyGain>, nat))
    ensures r.1 >= cursor
    ensures |r.0| <= |composition|
    ensures forall g :: g in r.0 ==> g.playerId != playerId && (g.change == 1 || g.change == 2)
    ensures forall g :: g in r.0 ==> exists c :: c in composition && c.playerId == g.playerId
  {
    if composition == [] then ([], cursor)
    else
      var c := composition[0];
      assert forall c' :: c' in composition[1..] ==> c' in composition;
      if c.playerId == playerId then SynergyGains(composition[1..], playerId, rand, cursor)
      else
        var change := if rand(cursor) < 0.5 then 1 else if rand(cursor + 1) < 0.3 then 2 else 0;
        var after := if rand(cursor) < 0.5 then cursor + 1 else cursor + 2;
        var rest := SynergyGains(composition[1..], playerId, rand, after);
        (if change > 0 then [SynergyGain(c.playerId, change)] + rest.0 else rest.0, rest.1)
  }

  /** A player's gains from the session. */
  predicate ImprovementFits(imp: PlayerImprovement, player: Player, keys: seq<StatKey>, quality: real)
  {
    && imp.playerId == player.id && imp.playerName == player.name
    && (0.0 <= quality <= 100.0 ==> imp.agentProficiency <= 5)
    && (forall k :: k in imp.statImprovements ==>
         k in keys && player.stats.Get(k) < PotentialOr75(player) && imp.statImprovements[k] == 1)
    && (forall g :: g in imp.synergyGains ==> g.playerId != player.id && (g.change == 1 || g.change == 2))
  }

  /** A player's gains drawn from `start`: the agent gain takes the first
      draw, the stats below potential the next ones, and the synergy draws
      follow. */
  function DrawnImprovement(player: Player, agent: Agent, keys: seq<StatKey>, quality: real,
                            composition: seq<ScrimComposition>, rand: DrawStream, start: nat): PlayerImprovement
    requires ValidStream(rand)
  {
    PlayerImprovement(
      player.id, player.name,
      AgentProficiencyGain(quality, AgentProficiency(player.agentPool, agent), PotentialOr75(player), rand(start)),
      StatGains(player, keys, quality, rand, start + 1),
      SynergyGains(composition, player.id, rand, SynergyStart(player, keys, start)).0)
  }

  /** Where a player's synergy draws begin. */
  function SynergyStart(player: Player, keys: seq<StatKey>, start: nat): nat
  {
    start + 1 + |BelowPotential(player, keys)|
  }

  /** The first draw after a player's gains. */
  function ImprovementEnd(player: Player, keys: seq<StatKey>, composition: seq<ScrimComposition>,
                          rand: DrawStream, start: nat): nat
  {
    SynergyGains(composition, player.id, rand, SynergyStart(player, keys, start)).1
  }

  /** Gains drawn by these rules obey the bounds of ImprovementFits. */
  lemma DrawnImprovementFits(player: Player, agent: Agent, keys: seq<StatKey>,
                             quality: real, composition: seq<ScrimComposition>, rand: DrawStream, start: nat)
    requires ValidStream(rand)
    ensures ImprovementFits(DrawnImprovement(player, agent, keys, quality, composition, rand, start),
                            player, keys, quality)
  {
    StatGainsWithin(player, keys, quality, rand, start + 1);
  }

  method CalculatePlayerImprovements(player: Player, agent: Agent, objective: ScrimObjective, quality: real,
                                     composition: seq<ScrimComposition>, rand: DrawStream, cursor: nat)
    returns (imp: PlayerImprovement, next: nat)
    requires ValidStream(rand)
    ensures next > cursor
    ensures ImprovementFits(imp, player, ObjectiveStats(objective), quality)
    ensures imp == DrawnImprovement(player, agent, ObjectiveStats(objective), quality, composition, rand, cursor)
    ensures next == ImprovementEnd(player, ObjectiveStats(objective), composition, rand, cursor)
    ensures imp.agentProficiency ==
      AgentProficiencyGain(quality, AgentProficiency(player.agentPool, agent), PotentialOr75(player), rand(cursor))
  {
    var currentProf := AgentProficiency(player.agentPool, agent);
    var agentProficiency := AgentProficiencyGain(quality, currentProf, PotentialOr75(player), rand(cursor));
    var statImprovements, afterStats := CalculateStatImprovements(player, objective, quality, rand, cursor + 1);
    assert afterStats == SynergyStart(player, ObjectiveStats(objective), cursor);
    var synergy := SynergyGains(composition, player.id, rand, afterStats);
    imp := PlayerImprovement(player.id, player.name, agentProficiency, statImprovements, synergy.0);
    next := synergy.1;
    DrawnImprovementFits(player, agent, ObjectiveStats(objective), quality, composition, rand, cursor);
  }

  // ---------------------------------------------------------------------
  // Feedback
  // ---------------------------------------------------------------------

  function FeedbackTierOf(quality: real): FeedbackTier
  {
    if quality >= 80.0 then Excellent
    else if quality >= 60.0 then Good
    else if quality >= 40.0 then Productive
    else Challenging
  }

  function TierRank(t: FeedbackTier): nat
  {
    match t
    case Challenging => 0
    case Productive => 1
    case Good => 2
    case Excellent => 3
  }

  /** A better session never gets worse feedback. */
  lemma FeedbackMonotone(q1: real, q2: real)
    requires q1 <= q2
    ensures TierRank(FeedbackTierOf(q1)) <= TierRank(FeedbackTierOf(q2))
  {
  }

  /** What the feedback says the session worked on. */
  function ObjectiveTopic(o: ScrimObjective): string
  {
    match o
    case MacroPlay => "macro strategy and map control"
    case SiteRetakes => "retake coordination"
    case SiteExecutes => "site execution timing"
    case UtilityUsage => "utility combinations"
    case LurkTimings => "lurk plays and flanking"
    case DefenseSetups => "defensive positioning"
    case Communication => "team communication"
    case Trading => "trading and refragging"
    case MapControl => "early round map control"
  }

  /** Feedback names the partner and the objective; its tier follows the
      thresholds 80, 60 and 40. */
  function GenerateScrimFeedback(opponent: ScrimOpponent, objective: ScrimObjective, quality: real): (f: ScrimFeedback)
    ensures f.opponentName == opponent.teamName && f.topic == ObjectiveTopic(objective)
    ensures f.tier == Excellent <==> quality >= 80.0
    ensures f.tier == Good <==> 60.0 <= quality < 80.0
    ensures f.tier == Productive <==> 40.0 <= quality < 60.0
    ensures f.tier == Challenging <==> quality < 40.0
  {
    ScrimFeedback(FeedbackTierOf(quality), opponent.teamName, ObjectiveTopic(objective))
  }

  // ---------------------------------------------------------------------
  // A whole session
  // ---------------------------------------------------------------------

  /** Every composition slot names a rostered player (the source asserts
      this with a non-null `!`). */
  predicate CompositionOnRoster(composition: seq<ScrimComposition>, roster: seq<Player>)
  {
    forall c :: c in composition ==> FindPlayer(roster, c.playerId).Some?
  }

  /** The roster entry a composition slot names. */
  function SlotPlayer(roster: seq<Player>, c: ScrimComposition): Player
    requires FindPlayer(roster, c.playerId).Some?
  {
    FindPlayer(roster, c.playerId).value
  }

  /** The roster entries the slots name, in composition order. */
  function SlotPlayers(roster: seq<Player>, composition: seq<ScrimComposition>): (players: seq<Player>)
    requires CompositionOnRoster(composition, roster)
    ensures |players| == |composition|
    ensures forall i :: 0 <= i < |composition| ==>
      composition[i] in composition && players[i] == SlotPlayer(roster, composition[i])
  {
    if composition == [] then []
    else
      assert composition[0] in composition;
      assert forall c :: c in composition[1..] ==> c in composition;
      [SlotPlayer(roster, composition[0])] + SlotPlayers(roster, composition[1..])
  }

  /** Where slot i's draws begin: the slots before it draw in order from
      `cursor`, slot k for its player `players[k]`. */
  function SlotStart(players: seq<Player>, composition: seq<ScrimComposition>, keys: seq<StatKey>,
                     rand: DrawStream, cursor: nat, i: nat): nat
    requires i <= |players|
  {
    if i == 0 then cursor
    else ImprovementEnd(players[i - 1], keys, composition, rand, SlotStart(players, composition, keys, rand, cursor, i - 1))
  }

  /** The first n values of f, in order. */
  function Build<T>(f: nat -> T, n: nat): (r: seq<T>)
    ensures |r| == n
  {
    if n == 0 then [] else Build(f, n - 1) + [f(n - 1)]
  }

  lemma {:induction false} BuildAt<T>(f: nat -> T, n: nat, i: nat)
    requires i < n
    ensures Build(f, n)[i] == f(i)
  {
    if i < n - 1 {
      BuildAt(f, n - 1, i);
    }
  }

  /** Slot k's gains: its player's, drawn from where slot k - 1's end. */
  function SlotGains(players: seq<Player>, composition: seq<ScrimComposition>, keys: seq<StatKey>,
                     quality: real, rand: DrawStream, cursor: nat): nat -> PlayerImprovement
    requires ValidStream(rand)
    requires |players| == |composition|
  {
    (k: nat) => if k < |players| && k < |composition|
         then DrawnImprovement(players[k], composition[k].agent, keys, quality, composition, rand,
                               SlotStart(players, composition, keys, rand, cursor, k))
         else PlayerImprovement("", "", 0, map[], [])
  }

  /** The gains of the first n slots' players, in composition order, each
      drawn from where the previous slot's draws end. */
  function DrawnSlots(players: seq<Player>, composition: seq<ScrimComposition>, keys: seq<StatKey>,
                      quality: real, rand: DrawStream, cursor: nat, n: nat): (r: seq<PlayerImprovement>)
    requires ValidStream(rand)
    requires n <= |players| == |composition|
    ensures |r| == n
  {
    Build(SlotGains(players, composition, keys, quality, rand, cursor), n)
  }

  /** Slot i's entry is its player's gains drawn from `SlotStart`. */
  lemma DrawnSlotsAt(players: seq<Player>, composition: seq<ScrimComposition>,
                     keys: seq<StatKey>, quality: real, rand: DrawStream, cursor: nat, n: nat, i: nat)
    requires ValidStream(rand)
    requires i < n <= |players| == |composition|
    ensures DrawnSlots(players, composition, keys, quality, rand, cursor, n)[i] ==
      DrawnImprovement(players[i], composition[i].agent, keys, quality,
                       composition, rand, SlotStart(players, composition, keys, rand, cursor, i))
  {
    BuildAt(SlotGains(players, composition, keys, quality, rand, cursor), n, i);
  }

  /** Slot i's entry fits the slot's player. */
  lemma DrawnSlotsFit(players: seq<Player>, composition: seq<ScrimComposition>,
                      keys: seq<StatKey>, quality: real, rand: DrawStream, cursor: nat, n: nat, i: nat)
    requires ValidStream(rand)
    requires i < n <= |players| == |composition|
    ensures ImprovementFits(DrawnSlots(players, composition, keys, quality, rand, cursor, n)[i],
                            players[i], keys, quality)
  {
    DrawnSlotsAt(players, composition, keys, quality, rand, cursor, n, i);
    DrawnImprovementFits(players[i], composition[i].agent, keys, quality,
                         composition, rand, SlotStart(players, composition, keys, rand, cursor, i));
  }

  /** The gains of each slot's player, in composition order. */
  method CollectImprovements(session: ScrimSession, playerTeam: Team, quality: real, rand: DrawStream, cursor: nat)
    returns (improvements: seq<PlayerImprovement>, next: nat)
    requires ValidStream(rand)
    requires CompositionOnRoster(session.composition, playerTeam.roster)
    ensures next >= cursor
    ensures improvements == DrawnSlots(SlotPlayers(playerTeam.roster, session.composition), session.composition,
                                       ObjectiveStats(session.objective), quality, rand, cursor, |session.composition|)
    ensures next == SlotStart(SlotPlayers(playerTeam.roster, session.composition), session.composition,
                              ObjectiveStats(session.objective), rand, cursor, |session.composition|)
  {
    var players := SlotPlayers(playerTeam.roster, session.composition);
    var keys := ObjectiveStats(session.objective);
    ghost var gains := SlotGains(players, session.composition, keys, quality, rand, cursor);
    improvements, next := [], cursor;
    for i := 0 to |session.composition|
      invariant next >= cursor
      invariant improvements == Build(gains, i)
      invariant next == SlotStart(players, session.composition, keys, rand, cursor, i)
    {
      var imp, after := CalculatePlayerImprovements(players[i], session.composition[i].agent, session.objective,
                                                    quality, session.composition, rand, next);
      assert imp == gains(i);
      improvements := improvements + [imp];
      next := after;
    }
  }

  /** Runs a scrim: rates it, then the team gains (one draw each, map
      first) and each slot's player gains, in composition order. */
  method SimulateScrim(session: ScrimSession, playerTeam: Team, rand: DrawStream, cursor: nat)
    returns (result: ScrimResult, next: nat)
    requires ValidStream(rand)
    requires CompositionOnRoster(session.composition, playerTeam.roster)
    ensures next >= cursor + 2
    ensures result.session == session
    ensures result.qualityRating ==
      QualityRating(BaseQuality(session), CompositionScore(playerTeam.roster, session.composition))
    ensures result.qualityRating <= 100.0
    ensures result.teamMapProficiency == MapProficiencyGain(result.qualityRating, rand(cursor))
    ensures result.objectiveProficiency == ObjectiveProficiencyGain(result.qualityRating, rand(cursor + 1))
    ensures 0.0 <= result.qualityRating ==> 0 <= result.teamMapProficiency <= 3 && 0 <= result.objectiveProficiency <= 6
    ensures result.playerImprovements ==
      DrawnSlots(SlotPlayers(playerTeam.roster, session.composition), session.composition,
                 ObjectiveStats(session.objective), result.qualityRating, rand, cursor + 2, |session.composition|)
    ensures next == SlotStart(SlotPlayers(playerTeam.roster, session.composition), session.composition,
                              ObjectiveStats(session.objective), rand, cursor + 2, |session.composition|)
    ensures result.feedback == GenerateScrimFeedback(session.opponent, session.objective, result.qualityRating)
  {
    var baseQuality := BaseQuality(session);
    var compositionQuality := CalculateCompositionQuality(session.composition, playerTeam);
    var qualityRating := MinR(100.0, (baseQuality + compositionQuality) / 2.0);
    var teamMapProficiency := MapProficiencyGain(qualityRating, rand(cursor));
    var objectiveProficiency := ObjectiveProficiencyGain(qualityRating, rand(cursor + 1));
    var improvements;
    improvements, next := CollectImprovements(session, playerTeam, qualityRating, rand, cursor + 2);
    var feedback := GenerateScrimFeedback(session.opponent, session.objective, qualityRating);
    result := ScrimResult(session, teamMapProficiency, objectiveProficiency, improvements, qualityRating, feedback);
  }
}
