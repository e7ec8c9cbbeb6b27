/** Team construction, the team cache and the round-robin schedule
    (src/utils/teamUtils.ts). The regional team table and the elite
    player table are inputs; draws come from an injected stream. */
module TeamUtils {
  import opened Types
  import PlayerGenerator

  // ---------------------------------------------------------------------
  // Team construction
  // ---------------------------------------------------------------------

  /** A roster entry of the static team table. */
  datatype BasicPlayer = BasicPlayer(name: string, role: Role)

  /** A team of the static team table. */
  datatype BasicTeam = BasicTeam(name: string, shortName: string, region: Region, roster: seq<BasicPlayer>)

  function RegionName(r: Region): string
  {
    match r
    case Americas => "Americas"
    case EMEA => "EMEA"
    case Pacific => "Pacific"
    case China => "China"
  }

  /** The first table entry with that team name, if any. */
  function FindBasicTeam(basicTeams: seq<BasicTeam>, teamName: string): (r: Option<BasicTeam>)
    ensures r.Some? <==> exists t :: t in basicTeams && t.name == teamName
    ensures r.Some? ==> r.value in basicTeams && r.value.name == teamName
  {
    if basicTeams == [] then None
    else if basicTeams[0].name == teamName then Some(basicTeams[0])
    else FindBasicTeam(basicTeams[1..], teamName)
  }

  /** The first elite player with that name, if any. */
  function FindElite(elitePlayers: seq<Player>, name: string): (r: Option<Player>)
    ensures r.Some? <==> exists p :: p in elitePlayers && p.name == name
    ensures r.Some? ==> r.value in elitePlayers && r.value.name == name
  {
    if elitePlayers == [] then None
    else if elitePlayers[0].name == name then Some(elitePlayers[0])
    else FindElite(elitePlayers[1..], name)
  }

  /** A roster slot: the elite record of that name if there is one,
      otherwise a generated player of the listed role; either way on the
      team. */
  predicate SlotFilled(p: Player, bp: BasicPlayer, teamName: string, elitePlayers: seq<Player>)
  {
    && p.name == bp.name
    && p.teamId == Some(teamName)
    && (FindElite(elitePlayers, bp.name).Some? ==> p == FindElite(elitePlayers, bp.name).value.(teamId := Some(teamName)))
    && (FindElite(elitePlayers, bp.name).None? ==>
          p.id == PlayerGenerator.Slug(bp.name) && p.role == bp.role && p.preferredRole == bp.role)
  }

  /** A full team built from a table entry: its slug id, names and region,
      one player per roster slot in the same order, a 2 500 000 budget and
      a clean record. */
  predicate BuiltFrom(t: Team, bt: BasicTeam, elitePlayers: seq<Player>)
  {
    && t.id == PlayerGenerator.Slug(bt.name)
    && t.name == bt.name && t.shortName == bt.shortName && t.region == bt.region
    && |t.roster| == |bt.roster|
    && (forall k :: 0 <= k < |t.roster| ==> SlotFilled(t.roster[k], bt.roster[k], bt.name, elitePlayers))
    && t.budget == 2500000
    && t.wins == 0 && t.losses == 0 && t.mapDifferential == 0 && t.roundDifferential == 0
    && t.mapPracticeLevel == map[]
  }

  /** The full team of a table entry, or an error when the region's table
      has no team of that name. Generated players take their pool orders
      from `shuffles` starting at index `offset`. */
  method CreateFullTeam(teamName: string, region: Region, basicTeams: seq<BasicTeam>, elitePlayers: seq<Player>,
                        shuffles: PlayerGenerator.ShuffleSource, offset: nat, rand: DrawStream, cursor: nat)
    returns (r: Result<Team>, next: nat)
    requires ValidStream(rand) && PlayerGenerator.ValidShuffleSource(shuffles)
    ensures next >= cursor
    ensures r.Err? <==> FindBasicTeam(basicTeams, teamName).None?
    ensures r.Ok? ==> BuiltFrom(r.value, FindBasicTeam(basicTeams, teamName).value, elitePlayers)
  {
    var found := FindBasicTeam(basicTeams, teamName);
    if found.None? {
      return Err("Team " + teamName + " not found in region " + RegionName(region)), cursor;
    }
    var basicTeam := found.value;
    next := cursor;
    var tier := PlayerGenerator.GetTeamTier(teamName, rand(next));
    if PlayerGenerator.TierIsRandom(teamName) {
      next := next + 1;
    }
    var roster: seq<Player> := [];
    for i := 0 to |basicTeam.roster|
      invariant next >= cursor && |roster| == i
      invariant forall k :: 0 <= k < i ==> SlotFilled(roster[k], basicTeam.roster[k], basicTeam.name, elitePlayers)
    {
      var player;
      player, next := FillSlot(basicTeam.roster[i], basicTeam.name, region, tier, elitePlayers,
                               shuffles(offset + i, basicTeam.roster[i].role), rand, next);
      roster := roster + [player];
    }
    r := Ok(Team(PlayerGenerator.Slug(basicTeam.name), basicTeam.name, basicTeam.shortName, basicTeam.region,
                 roster, 2500000, 0, 0, 0, 0, map[]));
  }

  /** One roster slot: the elite player of that name when the table has
      one, otherwise a generated player; either way on this team. */
  method FillSlot(basicPlayer: BasicPlayer, teamName: string, region: Region, tier: PlayerGenerator.Tier,
                  elitePlayers: seq<Player>, sh: PlayerGenerator.PoolShuffle, rand: DrawStream, cursor: nat)
    returns (player: Player, next: nat)
    requires ValidStream(rand) && PlayerGenerator.ValidPoolShuffle(sh, basicPlayer.role)
    ensures next >= cursor
    ensures SlotFilled(player, basicPlayer, teamName, elitePlayers)
  {
    var elitePlayer := FindElite(elitePlayers, basicPlayer.name);
    if elitePlayer.Some? {
      player, next := elitePlayer.value.(teamId := Some(teamName)), cursor;
    } else {
      player, next := PlayerGenerator.GeneratePlayer(basicPlayer.name, basicPlayer.role, region, tier, None,
                                                     sh, rand, cursor);
      player := player.(teamId := Some(teamName));
    }
  }

  /** The first `t` teams are built from the table entries found under
      the first `t` table names. */
  predicate BuiltUpTo(teams: seq<Team>, basicTeams: seq<BasicTeam>, elitePlayers: seq<Player>, t: nat)
    requires t <= |teams| && t <= |basicTeams|
  {
    forall u :: 0 <= u < t ==>
      FindBasicTeam(basicTeams, basicTeams[u].name).Some?
      && BuiltFrom(teams[u], FindBasicTeam(basicTeams, basicTeams[u].name).value, elitePlayers)
  }

  /** Every team of the region's table, in table order; none is missing,
      since each is looked up by its own name. */
  method GetAllTeamsInRegion(region: Region, basicTeams: seq<BasicTeam>, elitePlayers: seq<Player>,
                             shuffles: PlayerGenerator.ShuffleSource, rand: DrawStream, cursor: nat)
    returns (teams: seq<Team>, next: nat)
    requires ValidStream(rand) && PlayerGenerator.ValidShuffleSource(shuffles)
    ensures next >= cursor
    ensures |teams| == |basicTeams|
    ensures forall t :: 0 <= t < |teams| ==>
      BuiltFrom(teams[t], FindBasicTeam(basicTeams, basicTeams[t].name).value, elitePlayers)
  {
    teams := [];
    next := cursor;
    var offset: nat := 0;
    for t := 0 to |basicTeams|
      invariant next >= cursor && |teams| == t
      invariant BuiltUpTo(teams, basicTeams, elitePlayers, t)
    {
      assert basicTeams[t] in basicTeams;
      var created;
      created, next := CreateFullTeam(basicTeams[t].name, region, basicTeams, elitePlayers, shuffles, offset, rand, next);
      offset := offset + |created.value.roster|;
      BuiltAppend(teams, created.value, basicTeams, elitePlayers, t);
      teams := teams + [created.value];
    }
  }

  lemma BuiltAppend(teams: seq<Team>, team: Team, basicTeams: seq<BasicTeam>, elitePlayers: seq<Player>, t: nat)
    requires t == |teams| && t < |basicTeams| && BuiltUpTo(teams, basicTeams, elitePlayers, t)
    requires FindBasicTeam(basicTeams, basicTeams[t].name).Some?
    requires BuiltFrom(team, FindBasicTeam(basicTeams, basicTeams[t].name).value, elitePlayers)
    ensures BuiltUpTo(teams + [team], basicTeams, elitePlayers, t + 1)
  {
    var after := teams + [team];
    forall u | 0 <= u < t + 1
      ensures BuiltFrom(after[u], FindBasicTeam(basicTeams, basicTeams[u].name).value, elitePlayers)
    {
      if u < t {
        assert after[u] == teams[u];
      }
    }
  }

  // ---------------------------------------------------------------------
  // Team cache
  // ---------------------------------------------------------------------

  /** The cache key: the region, a hyphen, then the team name. */
  function CacheKey(region: Region, teamName: string): string
  {
    RegionName(region) + "-" + teamName
  }

  /** Different (region, name) pairs never share a key: the region names
      start with different letters and contain no dash. */
  lemma CacheKeyInjective(r1: Region, n1: string, r2: Region, n2: string)
    requires CacheKey(r1, n1) == CacheKey(r2, n2)
    ensures r1 == r2 && n1 == n2
  {
    var k1, k2 := CacheKey(r1, n1), CacheKey(r2, n2);
    assert k1[0] == RegionName(r1)[0] && k2[0] == RegionName(r2)[0];
    assert r1 == r2;
    var prefix := RegionName(r1) + "-";
    assert k1 == prefix + n1 && k2 == prefix + n2;
    assert n1 == k1[|prefix|..] && n2 == k2[|prefix|..];
  }

  /** The module-level map from cache keys to built teams. */
  class TeamCache {
    var cache: map<string, Team>

    constructor ()
      ensures cache == map[]
    {
      cache := map[];
    }

    /** The cached team of that key; on a miss the team is built and
        stored, and a failed build leaves the cache alone. */
    method GetCachedTeam(teamName: string, region: Region, basicTeams: seq<BasicTeam>, elitePlayers: seq<Player>,
                         shuffles: PlayerGenerator.ShuffleSource, offset: nat, rand: DrawStream, cursor: nat)
      returns (r: Result<Team>, next: nat)
      requires ValidStream(rand) && PlayerGenerator.ValidShuffleSource(shuffles)
      modifies this
      ensures CacheKey(region, teamName) in old(cache) ==>
        r == Ok(old(cache)[CacheKey(region, teamName)]) && cache == old(cache) && next == cursor
      ensures CacheKey(region, teamName) !in old(cache) && r.Ok? ==>
        cache == old(cache)[CacheKey(region, teamName) := r.value]
        && FindBasicTeam(basicTeams, teamName).Some?
        && BuiltFrom(r.value, FindBasicTeam(basicTeams, teamName).value, elitePlayers)
      ensures CacheKey(region, teamName) !in old(cache) ==>
        (r.Err? <==> FindBasicTeam(basicTeams, teamName).None?)
      ensures r.Err? ==> cache == old(cache)
    {
      var key := CacheKey(region, teamName);
      next := cursor;
      if key !in cache {
        var created;
        created, next := CreateFullTeam(teamName, region, basicTeams, elitePlayers, shuffles, offset, rand, cursor);
        if created.Err? {
          return created, next;
        }
        cache := cache[key := created.value];
      }
      r := Ok(cache[key]);
    }

    /** Forgets every cached team. */
    method ClearTeamCache()
      modifies this
      ensures cache == map[]
    {
      cache := map[];
    }
  }

  // ---------------------------------------------------------------------
  // Round-robin pairing
  // ---------------------------------------------------------------------

  /** The id of the k-th fixture: "match-" followed by k in decimal. */
  function MatchId(k: nat): string
  {
    "match-" + NatToString(k)
  }

  lemma MatchIdInjective(a: nat, b: nat)
    requires MatchId(a) == MatchId(b)
    ensures a == b
  {
    assert NatToString(a) == MatchId(a)[6..];
    assert NatToString(b) == MatchId(b)[6..];
    NatToStringInjective(a, b);
  }

  /** The `k`-th fixture, before weeks are assigned. */
  function Fixture(k: nat, teamA: Team, teamB: Team): Match
  {
    Match(MatchId(k), 0, teamA, teamB, None, None, Stage1)
  }

  /** The fixtures of team `i` against teams `j..`, numbered from `k`. */
  function RowFixtures(teams: seq<Team>, i: nat, j: nat, k: nat): seq<Match>
    requires i < |teams|
    decreases |teams| - j
  {
    if j >= |teams| then [] else [Fixture(k, teams[i], teams[j])] + RowFixtures(teams, i, j + 1, k + 1)
  }

  /** The fixtures of teams `i..` against later teams, numbered from `k`. */
  function FixturesFrom(teams: seq<Team>, i: nat, k: nat): seq<Match>
    decreases |teams| - i
  {
    if i >= |teams| then []
    else RowFixtures(teams, i, i + 1, k) + FixturesFrom(teams, i + 1, k + |teams| - i - 1)
  }

  /** The nested-loop order: every team against every later team. */
  function RoundRobin(teams: seq<Team>): seq<Match>
  {
    FixturesFrom(teams, 0, 0)
  }

  /** The number of pairs `a < b` among `m` items. */
  function PairCount(m: nat): nat
  {
    if m == 0 then 0 else m - 1 + PairCount(m - 1)
  }

  lemma {:induction false} PairCountFormula(m: nat)
    ensures 2 * PairCount(m) == m * (m - 1)
  {
    if m > 0 {
      PairCountFormula(m - 1);
    }
  }

  lemma {:induction false} RowLength(teams: seq<Team>, i: nat, j: nat, k: nat)
    requires i < |teams| && j <= |teams|
    ensures |RowFixtures(teams, i, j, k)| == |teams| - j
    decreases |teams| - j
  {
    if j < |teams| {
      RowLength(teams, i, j + 1, k + 1);
    }
  }

  lemma {:induction false} FixturesLength(teams: seq<Team>, i: nat, k: nat)
    requires i <= |teams|
    ensures |FixturesFrom(teams, i, k)| == PairCount(|teams| - i)
    decreases |teams| - i
  {
    if i < |teams| {
      var row, rest := RowFixtures(teams, i, i + 1, k), FixturesFrom(teams, i + 1, k + |teams| - i - 1);
      RowLength(teams, i, i + 1, k);
      FixturesLength(teams, i + 1, k + |teams| - i - 1);
      assert FixturesFrom(teams, i, k) == row + rest;
      assert PairCount(|teams| - i) == |teams| - i - 1 + PairCount(|teams| - (i + 1));
    }
  }

  /** A fixture numbered `k` between two teams `a < b`, both at or after
      `lo`: unplayed, week 0, Stage 1. */
  predicate IsFixture(m: Match, teams: seq<Team>, lo: nat, k: nat)
  {
    && m.id == MatchId(k) && m.week == 0 && m.maps.None? && m.winner.None? && m.stage == Stage1
    && exists a, b :: lo <= a < b < |teams| && m.teamA == teams[a] && m.teamB == teams[b]
  }

  lemma {:induction false} RowFacts(teams: seq<Team>, i: nat, j: nat, k: nat)
    requires i < j <= |teams|
    ensures forall x :: 0 <= x < |RowFixtures(teams, i, j, k)| ==> IsFixture(RowFixtures(teams, i, j, k)[x], teams, i, k + x)
    decreases |teams| - j
  {
    if j < |teams| {
      RowFacts(teams, i, j + 1, k + 1);
      var row := RowFixtures(teams, i, j, k);
      forall x | 0 <= x < |row| ensures IsFixture(row[x], teams, i, k + x) {
        if x == 0 {
          assert row[0].teamA == teams[i] && row[0].teamB == teams[j];
        } else {
          assert row[x] == RowFixtures(teams, i, j + 1, k + 1)[x - 1];
        }
      }
    }
  }

  lemma {:induction false} FixturesFacts(teams: seq<Team>, i: nat, k: nat)
    requires i <= |teams|
    ensures forall x :: 0 <= x < |FixturesFrom(teams, i, k)| ==> IsFixture(FixturesFrom(teams, i, k)[x], teams, i, k + x)
    decreases |teams| - i
  {
    if i < |teams| {
      var row := RowFixtures(teams, i, i + 1, k);
      var rest := FixturesFrom(teams, i + 1, k + |teams| - i - 1);
      RowFacts(teams, i, i + 1, k);
      RowLength(teams, i, i + 1, k);
      FixturesFacts(teams, i + 1, k + |teams| - i - 1);
      var all := row + rest;
      forall x | 0 <= x < |all| ensures IsFixture(all[x], teams, i, k + x) {
        if x < |row| {
          assert all[x] == row[x];
        } else {
          assert all[x] == rest[x - |row|];
          assert IsFixture(rest[x - |row|], teams, i + 1, k + |teams| - i - 1 + (x - |row|));
        }
      }
    }
  }

  /** Some fixture of `s` puts team `a` against team `b`. */
  predicate HasFixture(s: seq<Match>, teams: seq<Team>, a: nat, b: nat)
    requires a < |teams| && b < |teams|
  {
    exists x :: 0 <= x < |s| && s[x].teamA == teams[a] && s[x].teamB == teams[b]
  }

  lemma {:induction false} RowCovers(teams: seq<Team>, i: nat, j: nat, k: nat)
    requires i < |teams| && j <= |teams|
    ensures forall b :: j <= b < |teams| ==> HasFixture(RowFixtures(teams, i, j, k), teams, i, b)
    decreases |teams| - j
  {
    if j < |teams| {
      RowCovers(teams, i, j + 1, k + 1);
      var row := RowFixtures(teams, i, j, k);
      forall b | j <= b < |teams| ensures HasFixture(row, teams, i, b) {
        if b == j {
          assert row[0].teamA == teams[i] && row[0].teamB == teams[j];
        } else {
          var tail := RowFixtures(teams, i, j + 1, k + 1);
          assert HasFixture(tail, teams, i, b);
          var x :| 0 <= x < |tail| && tail[x].teamA == teams[i] && tail[x].teamB == teams[b];
          assert row[x + 1] == tail[x];
        }
      }
    }
  }

  lemma {:induction false} FixturesCover(teams: seq<Team>, i: nat, k: nat)
    requires i <= |teams|
    ensures forall a, b :: i <= a < b < |teams| ==> HasFixture(FixturesFrom(teams, i, k), teams, a, b)
    decreases |teams| - i
  {
    if i < |teams| {
      var row := RowFixtures(teams, i, i + 1, k);
      var rest := FixturesFrom(teams, i + 1, k + |teams| - i - 1);
      RowCovers(teams, i, i + 1, k);
      FixturesCover(teams, i + 1, k + |teams| - i - 1);
      var all := row + rest;
      forall a, b | i <= a < b < |teams| ensures HasFixture(all, teams, a, b) {
        if a == i {
          assert HasFixture(row, teams, a, b);
          var x :| 0 <= x < |row| && row[x].teamA == teams[a] && row[x].teamB == teams[b];
          assert all[x] == row[x];
        } else {
          assert HasFixture(rest, teams, a, b);
          var x :| 0 <= x < |rest| && rest[x].teamA == teams[a] && rest[x].teamB == teams[b];
          assert all[|row| + x] == rest[x];
        }
      }
    }
  }

  /** The fixtures before shuffling: n(n-1)/2 of them, ids `match-0`,
      `match-1`, ... in order, each an unplayed Stage 1 match of a team
      against a later one, and every such pairing present. With one
      fixture per pairing in number, each pairing is played exactly once. */
  lemma RoundRobinFacts(teams: seq<Team>)
    ensures 2 * |RoundRobin(teams)| == |teams| * (|teams| - 1)
    ensures forall x :: 0 <= x < |RoundRobin(teams)| ==> IsFixture(RoundRobin(teams)[x], teams, 0, x)
    ensures forall a, b :: 0 <= a < b < |teams| ==> HasFixture(RoundRobin(teams), teams, a, b)
    ensures forall x, y :: 0 <= x < y < |RoundRobin(teams)| ==> RoundRobin(teams)[x].id != RoundRobin(teams)[y].id
  {
    FixturesLength(teams, 0, 0);
    PairCountFormula(|teams|);
    FixturesFacts(teams, 0, 0);
    FixturesCover(teams, 0, 0);
    var rr := RoundRobin(teams);
    forall x, y | 0 <= x < y < |rr| ensures rr[x].id != rr[y].id {
      assert IsFixture(rr[x], teams, 0, x) && IsFixture(rr[y], teams, 0, y);
      if rr[x].id == rr[y].id {
        MatchIdInjective(x, y);
      }
    }
  }

  /** A team never meets itself when team names are distinct. */
  lemma NoSelfMatch(teams: seq<Team>)
    requires forall a, b :: 0 <= a < b < |teams| ==> teams[a].name != teams[b].name
    ensures forall m :: m in RoundRobin(teams) ==> m.teamA.name != m.teamB.name
  {
    RoundRobinFacts(teams);
    forall m | m in RoundRobin(teams) ensures m.teamA.name != m.teamB.name {
      var x :| 0 <= x < |RoundRobin(teams)| && RoundRobin(teams)[x] == m;
      assert IsFixture(m, teams, 0, x);
    }
  }

  // ---------------------------------------------------------------------
  // Weeks
  // ---------------------------------------------------------------------

  /** The week of the k-th shuffled fixture: half the team count of fixtures per week, counting from week 1. */
  function WeekOf(index: nat, teamCount: nat): int
    requires teamCount >= 2
  {
    index / (teamCount / 2) + 1
  }

  lemma {:induction false} MultiplyStep(p: nat, a: nat, b: nat)
    ensures a < b ==> p * a + p <= p * b
    decreases b
  {
    if a < b && a + 1 < b {
      MultiplyStep(p, a, b - 1);
      assert p * b == p * (b - 1) + p;
    }
  }

  lemma DivisionStep(k1: nat, k2: nat, p: nat)
    requires p > 0 && k1 <= k2
    ensures k1 / p <= k2 / p
    ensures k1 / p == k2 / p ==> k2 - k1 < p
  {
    var q1, q2, r1, r2 := k1 / p, k2 / p, k1 % p, k2 % p;
    assert k1 == p * q1 + r1 && 0 <= r1 < p;
    assert k2 == p * q2 + r2 && 0 <= r2 < p;
    MultiplyStep(p, q2, q1);
    assert q2 < q1 ==> k2 < p * q2 + p <= p * q1 <= k1;
  }

  /** Weeks start at 1, never decrease along the schedule, and no week
      holds more than floor(n / 2) matches (indices sharing a week are
      fewer than floor(n / 2) apart). */
  lemma WeeksShape(teamCount: nat, k1: nat, k2: nat)
    requires teamCount >= 2 && k1 <= k2
    ensures WeekOf(k1, teamCount) >= 1
    ensures WeekOf(k1, teamCount) <= WeekOf(k2, teamCount)
    ensures WeekOf(k1, teamCount) == WeekOf(k2, teamCount) ==> k2 - k1 < teamCount / 2
  {
    DivisionStep(k1, k2, teamCount / 2);
  }

  // ---------------------------------------------------------------------
  // Schedule
  // ---------------------------------------------------------------------

  /** The inner loop: team `i` against every later team. */
  method PushRow(teams: seq<Team>, i: nat, fixtures: seq<Match>, counter: nat)
    returns (pushed: seq<Match>, next: nat)
    requires i < |teams|
    ensures pushed == fixtures + RowFixtures(teams, i, i + 1, counter)
    ensures next == counter + |teams| - i - 1
  {
    pushed, next := fixtures, counter;
    for j := i + 1 to |teams|
      invariant next == counter + j - i - 1
      invariant pushed + RowFixtures(teams, i, j, next) == fixtures + RowFixtures(teams, i, i + 1, counter)
    {
      ghost var row := RowFixtures(teams, i, j + 1, next + 1);
      assert RowFixtures(teams, i, j, next) == [Fixture(next, teams[i], teams[j])] + row;
      assert pushed + ([Fixture(next, teams[i], teams[j])] + row) == (pushed + [Fixture(next, teams[i], teams[j])]) + row;
      pushed := pushed + [Fixture(next, teams[i], teams[j])];
      next := next + 1;
    }
    assert RowFixtures(teams, i, |teams|, next) == [];
  }

  /** The nested loops that push the fixtures. */
  method PushFixtures(teams: seq<Team>) returns (fixtures: seq<Match>)
    ensures fixtures == RoundRobin(teams)
  {
    fixtures := [];
    var counter: nat := 0;
    for i := 0 to |teams|
      invariant fixtures + FixturesFrom(teams, i, counter) == RoundRobin(teams)
    {
      RowThenRest(teams, i, counter, fixtures);
      fixtures, counter := PushRow(teams, i, fixtures, counter);
    }
    assert FixturesFrom(teams, |teams|, counter) == [];
  }

  /** The fixtures from row `i` on are row `i`'s, then the later rows'. */
  lemma RowThenRest(teams: seq<Team>, i: nat, counter: nat, fixtures: seq<Match>)
    requires i < |teams|
    ensures fixtures + FixturesFrom(teams, i, counter)
         == (fixtures + RowFixtures(teams, i, i + 1, counter)) + FixturesFrom(teams, i + 1, counter + |teams| - i - 1)
  {
    var rest := FixturesFrom(teams, i + 1, counter + |teams| - i - 1);
    assert FixturesFrom(teams, i, counter) == RowFixtures(teams, i, i + 1, counter) + rest;
  }

  /** The in-place Fisher-Yates pass: from the last slot down to slot 1,
      swap slot i with a drawn slot j in [0, i]. */
  method ShuffleInPlace(a: array<Match>, rand: DrawStream, cursor: nat) returns (next: nat)
    requires ValidStream(rand)
    modifies a
    ensures multiset(a[..]) == multiset(old(a[..]))
    ensures next == cursor + (if a.Length == 0 then 0 else a.Length - 1)
  {
    next := cursor;
    if a.Length == 0 {
      return;
    }
    var i := a.Length - 1;
    while i > 0
      invariant 0 <= i < a.Length
      invariant next == cursor + (a.Length - 1 - i)
      invariant multiset(a[..]) == multiset(old(a[..]))
      decreases i
    {
      var j := PlayerGenerator.RandomInRange(0, i, rand(next));
      a[i], a[j] := a[j], a[i];
      next := next + 1;
      i := i - 1;
    }
  }

  /** Gives each match its week. */
  method AssignWeeks(a: array<Match>, teamCount: nat)
    requires teamCount >= 2
    modifies a
    ensures forall k :: 0 <= k < a.Length ==> a[k] == old(a[k]).(week := WeekOf(k, teamCount))
  {
    var matchesPerWeek := teamCount / 2;
    for index := 0 to a.Length
      invariant forall k :: 0 <= k < index ==> a[k] == old(a[k]).(week := WeekOf(k, teamCount))
      invariant forall k :: index <= k < a.Length ==> a[k] == old(a[k])
    {
      a[index] := a[index].(week := index / matchesPerWeek + 1);
    }
  }

  /** A reordering keeps ids distinct. */
  lemma PermutationKeepsIdsDistinct(s: seq<Match>, t: seq<Match>)
    requires multiset(s) == multiset(t)
    requires forall x, y :: 0 <= x < y < |t| ==> t[x].id != t[y].id
    ensures forall x, y :: 0 <= x < y < |s| ==> s[x].id != s[y].id
  {
    forall x, y | 0 <= x < y < |s| ensures s[x].id != s[y].id {
      assert s[x] in multiset(t) && s[y] in multiset(t);
      var p :| 0 <= p < |t| && t[p] == s[x];
      var q :| 0 <= q < |t| && t[q] == s[y];
      if s[x].id == s[y].id {
        assert p == q;
        assert multiset(s)[s[x]] >= 2 by {
          assert s == s[..x] + [s[x]] + s[x + 1..y] + [s[y]] + s[y + 1..];
        }
        IdsDistinctCountOne(t, s[x]);
      }
    }
  }

  lemma {:induction false} IdsDistinctCountOne(t: seq<Match>, m: Match)
    requires forall x, y :: 0 <= x < y < |t| ==> t[x].id != t[y].id
    ensures multiset(t)[m] <= 1
  {
    if t != [] {
      assert t == [t[0]] + t[1..];
      IdsDistinctCountOne(t[1..], m);
      if t[0] == m {
        assert m !in t[1..];
      }
    }
  }

  /** The schedule of a list of teams: no matches for fewer than two
      teams; otherwise a reordering of the round-robin fixtures with
      distinct ids, the match at position k in week
      floor(k / floor(n / 2)) + 1. `shuffled` is the order before weeks
      are assigned. */
  method RoundRobinSchedule(teams: seq<Team>, rand: DrawStream, cursor: nat)
    returns (schedule: seq<Match>, next: nat, ghost shuffled: seq<Match>)
    requires ValidStream(rand)
    ensures |teams| < 2 ==> schedule == [] && next == cursor
    ensures |teams| >= 2 ==>
      && |schedule| == |RoundRobin(teams)| == |shuffled|
      && multiset(shuffled) == multiset(RoundRobin(teams))
      && (forall k :: 0 <= k < |schedule| ==> schedule[k] == shuffled[k].(week := WeekOf(k, |teams|)))
      && next == cursor + |schedule| - 1
    ensures forall x, y :: 0 <= x < y < |schedule| ==> schedule[x].id != schedule[y].id
  {
    if |teams| < 2 {
      return [], cursor, [];
    }
    var fixtures := PushFixtures(teams);
    RoundRobinFacts(teams);
    assert |fixtures| >= 1;
    var a := new Match[|fixtures|](k requires 0 <= k < |fixtures| => fixtures[k]);
    assert a[..] == fixtures;
    next := ShuffleInPlace(a, rand, cursor);
    shuffled := a[..];
    AssignWeeks(a, |teams|);
    schedule := a[..];
    PermutationKeepsIdsDistinct(shuffled, fixtures);
    forall x, y | 0 <= x < y < |schedule| ensures schedule[x].id != schedule[y].id {
      assert schedule[x].id == shuffled[x].id && schedule[y].id == shuffled[y].id;
    }
  }

  /** The league of a region: the region's teams, each built from its
      table entry, and their schedule: a reordering `shuffled` of the
      round-robin fixtures with the week of each position assigned. */
  method GenerateSchedule(region: Region, basicTeams: seq<BasicTeam>, elitePlayers: seq<Player>,
                          shuffles: PlayerGenerator.ShuffleSource, rand: DrawStream, cursor: nat)
    returns (teams: seq<Team>, schedule: seq<Match>, next: nat, ghost shuffled: seq<Match>)
    requires ValidStream(rand) && PlayerGenerator.ValidShuffleSource(shuffles)
    ensures |teams| == |basicTeams|
    ensures forall t :: 0 <= t < |teams| ==>
      BuiltFrom(teams[t], FindBasicTeam(basicTeams, basicTeams[t].name).value, elitePlayers)
    ensures |teams| < 2 ==> schedule == []
    ensures |teams| >= 2 ==>
      && |shuffled| == |schedule|
      && multiset(shuffled) == multiset(RoundRobin(teams))
      && (forall k :: 0 <= k < |schedule| ==> schedule[k] == shuffled[k].(week := WeekOf(k, |teams|)))
    ensures |teams| >= 2 ==> 2 * |schedule| == |teams| * (|teams| - 1)
    ensures forall k :: 0 <= k < |schedule| ==>
      schedule[k].week == WeekOf(k, |teams|) && schedule[k].stage == Stage1
      && schedule[k].maps.None? && schedule[k].winner.None?
    ensures forall x, y :: 0 <= x < y < |schedule| ==> schedule[x].id != schedule[y].id
  {
    teams, next := GetAllTeamsInRegion(region, basicTeams, elitePlayers, shuffles, rand, cursor);
    schedule, next, shuffled := RoundRobinSchedule(teams, rand, next);
    if |teams| >= 2 {
      ShuffledUnplayed(teams, shuffled);
    }
  }

  /** A shuffle of the fixtures holds only unplayed Stage 1 matches. */
  lemma ShuffledUnplayed(teams: seq<Team>, shuffled: seq<Match>)
    requires multiset(shuffled) == multiset(RoundRobin(teams))
    ensures 2 * |shuffled| == |teams| * (|teams| - 1)
    ensures forall k :: 0 <= k < |shuffled| ==>
      shuffled[k].stage == Stage1 && shuffled[k].maps.None? && shuffled[k].winner.None?
  {
    RoundRobinFacts(teams);
    assert |shuffled| == |multiset(shuffled)|;
    forall k | 0 <= k < |shuffled|
      ensures shuffled[k].stage == Stage1 && shuffled[k].maps.None? && shuffled[k].winner.None?
    {
      assert shuffled[k] in multiset(RoundRobin(teams));
      var x :| 0 <= x < |RoundRobin(teams)| && RoundRobin(teams)[x] == shuffled[k];
      assert IsFixture(RoundRobin(teams)[x], teams, 0, x);
    }
  }
}
