/** The map half of the match engine (src/utils/matchSimulator.ts): per-player
    performance records, how one round is credited to them, the map loop
    with its side switch and win rules, the end-of-map statistics, and the
    best-of-three series. */
module MatchMap {
  import opened Types
  import opened MatchRound

  // ---------------------------------------------------------------------
  // The agent a player is recorded on
  // ---------------------------------------------------------------------

  /** Index of the first entry of highest proficiency in the pool. */
  function BestAgentIndex(pool: seq<AgentEntry>): (k: nat)
    requires pool != []
    ensures k < |pool|
    ensures forall j :: 0 <= j < |pool| ==> pool[j].proficiency <= pool[k].proficiency
    ensures forall j :: 0 <= j < k ==> pool[j].proficiency < pool[k].proficiency
  {
    if |pool| == 1 then 0
    else
      var k := BestAgentIndex(pool[..|pool| - 1]);
      assert forall j :: 0 <= j < |pool| - 1 ==> pool[..|pool| - 1][j] == pool[j];
      if pool[|pool| - 1].proficiency > pool[k].proficiency then |pool| - 1 else k
  }

  /** The agent a player is recorded on: Jett for an empty pool. */
  function PlayerAgent(p: Player): Agent
  {
    if p.agentPool == [] then Jett else p.agentPool[BestAgentIndex(p.agentPool)].agent
  }

  /** Scans the pool keeping the first strictly better proficiency. */
  method GetPlayerAgent(p: Player) returns (a: Agent)
    ensures a == PlayerAgent(p)
    ensures p.agentPool == [] ==> a == Jett
    ensures p.agentPool != [] ==>
      exists k :: 0 <= k < |p.agentPool| && p.agentPool[k].agent == a &&
        forall j :: 0 <= j < |p.agentPool| ==> p.agentPool[j].proficiency <= p.agentPool[k].proficiency
  {
    var pool := p.agentPool;
    if |pool| == 0 {
      return Jett;
    }
    var best := 0;
    var bestProf := pool[0].proficiency;
    for i := 0 to |pool|
      invariant best < |pool| && bestProf == pool[best].proficiency
      invariant i == 0 ==> best == 0
      invariant i > 0 ==> best == BestAgentIndex(pool[..i])
    {
      assert pool[..i + 1][..i] == pool[..i];
      var prof := pool[i].proficiency;
      if prof > bestProf {
        best := i;
        bestProf := prof;
      }
    }
    assert pool[..|pool|] == pool;
    a := pool[best].agent;
  }

  // ---------------------------------------------------------------------
  // Performance records
  // ---------------------------------------------------------------------

  /** Every counter and rate of a record is zero. */
  predicate Blank(perf: PlayerMapPerformance)
  {
    && perf.kills == 0 && perf.deaths == 0 && perf.assists == 0
    && perf.acs == 0 && perf.kd == 0.0 && perf.adr == 0 && perf.kast == 0
    && perf.kpr == 0.0 && perf.apr == 0.0 && perf.fkpr == 0.0 && perf.fdpr == 0.0
    && perf.firstKills == 0 && perf.firstDeaths == 0
    && perf.doubleKills == 0 && perf.tripleKills == 0 && perf.quadraKills == 0 && perf.aceKills == 0
    && perf.clutchesWon == 0 && perf.clutchesPlayed == 0 && perf.clutchSuccessRate == 0.0
    && perf.econRating == 0
  }

  /** The key of a player's record: the id, or the name when the id is empty. */
  function PerformanceId(p: Player): string
  {
    if p.id != "" then p.id else p.name
  }

  function InitialPerformance(p: Player): PlayerMapPerformance
  {
    PlayerMapPerformance(
      PerformanceId(p), p.name, PlayerAgent(p),
      0, 0, 0, 0, 0.0, 0, 0, 0.0, 0.0, 0.0, 0.0,
      0, 0, 0, 0, 0, 0, 0, 0, 0.0, 0)
  }

  /** One blank record per roster player, in roster order, identified by id
      (or by name when the id is empty) and played on the player's best agent. */
  function InitializePerformances(roster: seq<Player>): (perfs: seq<PlayerMapPerformance>)
    ensures |perfs| == |roster|
    ensures forall i :: 0 <= i < |roster| ==>
      && Blank(perfs[i])
      && perfs[i].playerId == (if roster[i].id != "" then roster[i].id else roster[i].name)
      && perfs[i].playerName == roster[i].name
      && perfs[i].agent == PlayerAgent(roster[i])
  {
    seq(|roster|, i requires 0 <= i < |roster| => InitialPerformance(roster[i]))
  }

  // ---------------------------------------------------------------------
  // What one round credits to a player
  // ---------------------------------------------------------------------

  /** Kills made by the player with this id. */
  function KillsBy(kills: seq<KillEvent>, id: string): nat
  {
    if kills == [] then 0
    else KillsBy(kills[..|kills| - 1], id) + Count(kills[|kills| - 1].killer.id == id)
  }

  /** Deaths of the player with this id. */
  function DeathsOf(kills: seq<KillEvent>, id: string): nat
  {
    if kills == [] then 0
    else DeathsOf(kills[..|kills| - 1], id) + Count(kills[|kills| - 1].victim.id == id)
  }

  /** Deaths of the player with this id that were traded. */
  function TradedDeaths(kills: seq<KillEvent>, id: string): nat
  {
    if kills == [] then 0
    else
      var e := kills[|kills| - 1];
      TradedDeaths(kills[..|kills| - 1], id) + Count(e.victim.id == id && e.wasTraded)
  }

  predicate OpenedRound(kills: seq<KillEvent>, id: string) { kills != [] && kills[0].killer.id == id }

  predicate DiedFirst(kills: seq<KillEvent>, id: string) { kills != [] && kills[0].victim.id == id }

  function Count(b: bool): nat { if b then 1 else 0 }

  /** A player on the winning side who made no kill but survived or died may
      be credited an assist. */
  predicate AssistEligible(p: Player, r: RoundResult, wonRound: bool)
  {
    wonRound && KillsBy(r.kills, p.id) == 0 && (HasId(r.survivors, p.id) || DeathsOf(r.kills, p.id) > 0)
  }

  /** The round counts towards KAST: a kill, a traded death, survival or an assist. */
  predicate KastRound(p: Player, r: RoundResult, assisted: bool)
  {
    KillsBy(r.kills, p.id) > 0 || TradedDeaths(r.kills, p.id) > 0 || HasId(r.survivors, p.id) || assisted
  }

  /** The record after the round's kill events only. */
  function KillCredit(before: PlayerMapPerformance, id: string, kills: seq<KillEvent>): PlayerMapPerformance
  {
    before.(
      kills := before.kills + KillsBy(kills, id),
      deaths := before.deaths + DeathsOf(kills, id),
      firstKills := before.firstKills + Count(OpenedRound(kills, id)),
      firstDeaths := before.firstDeaths + Count(DiedFirst(kills, id)))
  }

  /** The record after a whole round: kills, deaths, opening kills and
      deaths, the assist (if credited), and one multi-kill of the tier
      equal to the number of kills the player made in the round. */
  function CreditRound(before: PlayerMapPerformance, p: Player, r: RoundResult, assisted: bool): PlayerMapPerformance
  {
    var n := KillsBy(r.kills, p.id);
    KillCredit(before, p.id, r.kills).(
      assists := before.assists + Count(assisted),
      doubleKills := before.doubleKills + Count(n == 2),
      tripleKills := before.tripleKills + Count(n == 3),
      quadraKills := before.quadraKills + Count(n == 4),
      aceKills := before.aceKills + Count(n == 5))
  }

  /** In a roster with distinct ids, findIndex by id lands on i exactly when
      the i-th player has that id. */
  lemma FindIndexExact(roster: seq<Player>, id: string, i: nat)
    requires DistinctIds(roster) && i < |roster|
    ensures FindIndexById(roster, id) == i <==> roster[i].id == id
  {
    if roster[i].id == id {
      assert HasId(roster, id);
    }
  }

  /** The record after one kill event; `first` marks the round's opening kill. */
  function EventCredit(prev: PlayerMapPerformance, id: string, e: KillEvent, first: bool): PlayerMapPerformance
  {
    var afterKill := if e.killer.id == id
      then prev.(kills := prev.kills + 1, firstKills := prev.firstKills + Count(first))
      else prev;
    if e.victim.id == id
    then afterKill.(deaths := afterKill.deaths + 1, firstDeaths := afterKill.firstDeaths + Count(first))
    else afterKill
  }

  lemma {:induction false} KillCreditStep(before: PlayerMapPerformance, id: string, kills: seq<KillEvent>, k: nat)
    requires k < |kills|
    ensures KillCredit(before, id, kills[..k + 1]) == EventCredit(KillCredit(before, id, kills[..k]), id, kills[k], k == 0)
    ensures KillsBy(kills[..k + 1], id) == KillsBy(kills[..k], id) + Count(kills[k].killer.id == id)
    ensures TradedDeaths(kills[..k + 1], id) == TradedDeaths(kills[..k], id) + Count(kills[k].victim.id == id && kills[k].wasTraded)
  {
    assert kills[..k + 1][..k] == kills[..k];
    assert kills[..k + 1][k] == kills[k];
    if k > 0 {
      assert kills[..k + 1][0] == kills[..k][0];
    }
  }

  /** The killer of one event: kills (and the opening kill) and the KAST flag. */
  method CreditKiller(
    performances: array<PlayerMapPerformance>, roster: seq<Player>, e: KillEvent, first: bool,
    kastThisRound: array<bool>)
    requires performances.Length == |roster| == kastThisRound.Length
    requires DistinctIds(roster)
    modifies performances, kastThisRound
    ensures forall i :: 0 <= i < |roster| ==>
      performances[i] == if e.killer.id == roster[i].id
        then old(performances[i]).(kills := old(performances[i]).kills + 1,
          firstKills := old(performances[i]).firstKills + Count(first))
        else old(performances[i])
    ensures forall i :: 0 <= i < |roster| ==>
      kastThisRound[i] == (old(kastThisRound[i]) || e.killer.id == roster[i].id)
  {
    var killerIdx := FindIndexById(roster, e.killer.id);
    if killerIdx != -1 {
      var pk := performances[killerIdx];
      performances[killerIdx] := pk.(kills := pk.kills + 1, firstKills := pk.firstKills + Count(first));
      kastThisRound[killerIdx] := true;
    }
    forall i | 0 <= i < |roster|
      ensures killerIdx == i <==> e.killer.id == roster[i].id
    {
      FindIndexExact(roster, e.killer.id, i);
    }
  }

  /** The victim of one event: deaths (and the opening death), and the KAST
      flag when the death was traded. */
  method CreditVictim(
    performances: array<PlayerMapPerformance>, roster: seq<Player>, e: KillEvent, first: bool,
    kastThisRound: array<bool>)
    requires performances.Length == |roster| == kastThisRound.Length
    requires DistinctIds(roster)
    modifies performances, kastThisRound
    ensures forall i :: 0 <= i < |roster| ==>
      performances[i] == if e.victim.id == roster[i].id
        then old(performances[i]).(deaths := old(performances[i]).deaths + 1,
          firstDeaths := old(performances[i]).firstDeaths + Count(first))
        else old(performances[i])
    ensures forall i :: 0 <= i < |roster| ==>
      kastThisRound[i] == (old(kastThisRound[i]) || (e.victim.id == roster[i].id && e.wasTraded))
  {
    var victimIdx := FindIndexById(roster, e.victim.id);
    if victimIdx != -1 {
      var pv := performances[victimIdx];
      performances[victimIdx] := pv.(deaths := pv.deaths + 1, firstDeaths := pv.firstDeaths + Count(first));
      if e.wasTraded {
        kastThisRound[victimIdx] := true;
      }
    }
    forall i | 0 <= i < |roster|
      ensures victimIdx == i <==> e.victim.id == roster[i].id
    {
      FindIndexExact(roster, e.victim.id, i);
    }
  }

  /** One kill event: the killer's and the victim's records are updated and
      their KAST flags set, the victim's only when the death was traded. */
  method CreditKillEvent(
    performances: array<PlayerMapPerformance>, roster: seq<Player>, e: KillEvent, first: bool,
    kastThisRound: array<bool>)
    requires performances.Length == |roster| == kastThisRound.Length
    requires DistinctIds(roster)
    modifies performances, kastThisRound
    ensures forall i :: 0 <= i < |roster| ==>
      performances[i] == EventCredit(old(performances[i]), roster[i].id, e, first)
    ensures forall i :: 0 <= i < |roster| ==>
      kastThisRound[i] == (old(kastThisRound[i]) || e.killer.id == roster[i].id
        || (e.victim.id == roster[i].id && e.wasTraded))
  {
    CreditKiller(performances, roster, e, first, kastThisRound);
    CreditVictim(performances, roster, e, first, kastThisRound);
  }

  /** The kill events of the round, in order. */
  method CreditKills(
    performances: array<PlayerMapPerformance>, roster: seq<Player>, kills: seq<KillEvent>,
    kastThisRound: array<bool>)
    requires performances.Length == |roster| == kastThisRound.Length
    requires DistinctIds(roster)
    requires forall i :: 0 <= i < |roster| ==> !kastThisRound[i]
    modifies performances, kastThisRound
    ensures forall i :: 0 <= i < |roster| ==>
      performances[i] == KillCredit(old(performances[i]), roster[i].id, kills)
    ensures forall i :: 0 <= i < |roster| ==>
      kastThisRound[i] == (KillsBy(kills, roster[i].id) > 0 || TradedDeaths(kills, roster[i].id) > 0)
  {
    ghost var start := performances[..];
    for k := 0 to |kills|
      invariant forall i :: 0 <= i < |roster| ==>
        performances[i] == KillCredit(start[i], roster[i].id, kills[..k])
      invariant forall i :: 0 <= i < |roster| ==>
        kastThisRound[i] == (KillsBy(kills[..k], roster[i].id) > 0 || TradedDeaths(kills[..k], roster[i].id) > 0)
    {
      CreditKillEvent(performances, roster, kills[k], k == 0, kastThisRound);
      forall i | 0 <= i < |roster|
        ensures performances[i] == KillCredit(start[i], roster[i].id, kills[..k + 1])
        ensures kastThisRound[i] ==
          (KillsBy(kills[..k + 1], roster[i].id) > 0 || TradedDeaths(kills[..k + 1], roster[i].id) > 0)
      {
        KillCreditStep(start[i], roster[i].id, kills, k);
      }
    }
    assert kills[..|kills|] == kills;
  }

  /** Survivors of the round get their KAST flag. */
  method CreditSurvivors(roster: seq<Player>, survivors: seq<Player>, kastThisRound: array<bool>)
    requires kastThisRound.Length == |roster|
    requires DistinctIds(roster)
    modifies kastThisRound
    ensures forall i :: 0 <= i < |roster| ==>
      kastThisRound[i] == (old(kastThisRound[i]) || HasId(survivors, roster[i].id))
  {
    for s := 0 to |survivors|
      invariant forall i :: 0 <= i < |roster| ==>
        kastThisRound[i] == (old(kastThisRound[i]) || HasId(survivors[..s], roster[i].id))
    {
      var idx := FindIndexById(roster, survivors[s].id);
      if idx != -1 {
        kastThisRound[idx] := true;
      }
      forall i | 0 <= i < |roster|
        ensures kastThisRound[i] == (old(kastThisRound[i]) || HasId(survivors[..s + 1], roster[i].id))
      {
        FindIndexExact(roster, survivors[s].id, i);
        var id := roster[i].id;
        if HasId(survivors[..s + 1], id) {
          var j :| 0 <= j < s + 1 && survivors[..s + 1][j].id == id;
          if j < s {
            assert survivors[..s][j].id == id;
          }
        }
        if HasId(survivors[..s], id) {
          var j :| 0 <= j < s && survivors[..s][j].id == id;
          assert survivors[..s + 1][j].id == id;
        }
        if survivors[s].id == id {
          assert survivors[..s + 1][s].id == id;
        }
      }
    }
    assert survivors[..|survivors|] == survivors;
  }

  /** On the winning side, every player eligible for an assist draws once
      and is credited one when the draw is below support / 150. */
  method CreditAssists(
    performances: array<PlayerMapPerformance>, roster: seq<Player>, r: RoundResult, wonRound: bool,
    kastThisRound: array<bool>, rand: DrawStream, cursor: nat)
    returns (next: nat)
    requires performances.Length == |roster| == kastThisRound.Length
    modifies performances, kastThisRound
    ensures next >= cursor
    ensures forall i :: 0 <= i < |roster| ==>
      && performances[i] == old(performances[i]).(assists := performances[i].assists)
      && (performances[i].assists == old(performances[i].assists)
          || (performances[i].assists == old(performances[i].assists) + 1 && AssistEligible(roster[i], r, wonRound)))
      && kastThisRound[i] == (old(kastThisRound[i]) || performances[i].assists != old(performances[i].assists))
  {
    next := cursor;
    if !wonRound {
      return;
    }
    for idx := 0 to |roster|
      invariant next >= cursor
      invariant forall i :: 0 <= i < |roster| ==>
        && performances[i] == old(performances[i]).(assists := performances[i].assists)
        && (performances[i].assists == old(performances[i].assists)
            || (performances[i].assists == old(performances[i].assists) + 1 && AssistEligible(roster[i], r, wonRound)))
        && kastThisRound[i] == (old(kastThisRound[i]) || performances[i].assists != old(performances[i].assists))
      invariant forall i :: idx <= i < |roster| ==> performances[i] == old(performances[i])
    {
      var player := roster[idx];
      var gotKill := KillsBy(r.kills, player.id) > 0;
      var died := DeathsOf(r.kills, player.id) > 0;
      var survived := HasId(r.survivors, player.id);
      if !gotKill && (survived || died) {
        if rand(next) < player.stats.support / 150.0 {
          var p := performances[idx];
          performances[idx] := p.(assists := p.assists + 1);
          kastThisRound[idx] := true;
        }
        next := next + 1;
      }
    }
  }

  /** Closes the round for each player: one multi-kill of the tier equal to
      the round's kill count, and one more KAST round when flagged. */
  method CloseRound(
    performances: array<PlayerMapPerformance>, roster: seq<Player>, kills: seq<KillEvent>,
    kastThisRound: array<bool>, kastRounds: array<int>)
    requires performances.Length == |roster| == kastThisRound.Length == kastRounds.Length
    modifies performances, kastRounds
    ensures forall i :: 0 <= i < |roster| ==>
      performances[i] == MultiKillCredit(old(performances[i]), KillsBy(kills, roster[i].id))
    ensures forall i :: 0 <= i < |roster| ==> kastRounds[i] == old(kastRounds[i]) + Count(kastThisRound[i])
  {
    for i := 0 to |roster|
      invariant forall j :: 0 <= j < i ==>
        performances[j] == MultiKillCredit(old(performances[j]), KillsBy(kills, roster[j].id))
      invariant forall j :: i <= j < |roster| ==> performances[j] == old(performances[j])
      invariant forall j :: 0 <= j < i ==> kastRounds[j] == old(kastRounds[j]) + Count(kastThisRound[j])
      invariant forall j :: i <= j < |roster| ==> kastRounds[j] == old(kastRounds[j])
    {
      var p := CountMultiKill(performances[i], KillsBy(kills, roster[i].id));
      performances[i] := p;
      if kastThisRound[i] {
        kastRounds[i] := kastRounds[i] + 1;
      }
    }
  }

  /** The multi-kill tier of `n` kills in one round bumped by one. */
  function MultiKillCredit(before: PlayerMapPerformance, n: int): PlayerMapPerformance
  {
    before.(
      doubleKills := before.doubleKills + Count(n == 2),
      tripleKills := before.tripleKills + Count(n == 3),
      quadraKills := before.quadraKills + Count(n == 4),
      aceKills := before.aceKills + Count(n == 5))
  }

  /** Credits the multi-kill tier that a kill count of n reaches: one more
      double, triple, quadra or ace; other counts change nothing. */
  method CountMultiKill(perf: PlayerMapPerformance, n: int) returns (p: PlayerMapPerformance)
    ensures p == MultiKillCredit(perf, n)
  {
    p := perf;
    if n == 2 { p := p.(doubleKills := p.doubleKills + 1); }
    if n == 3 { p := p.(tripleKills := p.tripleKills + 1); }
    if n == 4 { p := p.(quadraKills := p.quadraKills + 1); }
    if n == 5 { p := p.(aceKills := p.aceKills + 1); }
  }

  /** A team's records after round `r`, which the team won or lost as
      `won` says: each record is CreditRound of the one before, an assist
      only ever goes to an eligible player, and the KAST round count grows
      by one exactly when the round counts towards KAST. */
  predicate RoundCredited(
    before: seq<PlayerMapPerformance>, after: seq<PlayerMapPerformance>, roster: seq<Player>,
    kastBefore: seq<int>, kastAfter: seq<int>, r: RoundResult, won: bool)
  {
    && |before| == |after| == |roster| == |kastBefore| == |kastAfter|
    && forall i :: 0 <= i < |roster| ==>
      var assisted := after[i].assists != before[i].assists;
      && after[i] == CreditRound(before[i], roster[i], r, assisted)
      && (assisted ==> AssistEligible(roster[i], r, won))
      && kastAfter[i] == kastBefore[i] + Count(KastRound(roster[i], r, assisted))
  }

  /** Credits one round to one team's records: each player's record becomes
      CreditRound of the old one, where an assist is only ever credited to an
      eligible player, and the player's KAST round count grows by one exactly
      when the round counts towards KAST. */
  method UpdatePerformancesFromRound(
    performances: array<PlayerMapPerformance>, roster: seq<Player>, r: RoundResult, wonRound: bool,
    kastRounds: array<int>, rand: DrawStream, cursor: nat)
    returns (next: nat)
    requires performances.Length == |roster| == kastRounds.Length
    requires DistinctIds(roster)
    modifies performances, kastRounds
    ensures next >= cursor
    ensures RoundCredited(old(performances[..]), performances[..], roster, old(kastRounds[..]), kastRounds[..], r, wonRound)
  {
    var kastThisRound := new bool[|roster|](_ => false);
    ghost var start := performances[..];
    CreditKills(performances, roster, r.kills, kastThisRound);
    ghost var afterKills := performances[..];
    ghost var killFlags := kastThisRound[..];
    CreditSurvivors(roster, r.survivors, kastThisRound);
    ghost var survivorFlags := kastThisRound[..];
    next := CreditAssists(performances, roster, r, wonRound, kastThisRound, rand, cursor);
    ghost var afterAssists := performances[..];
    ghost var kastBefore := kastRounds[..];
    CloseRound(performances, roster, r.kills, kastThisRound, kastRounds);
    forall i | 0 <= i < |roster|
      ensures
        var assisted := performances[i].assists != start[i].assists;
        && performances[i] == CreditRound(start[i], roster[i], r, assisted)
        && (assisted ==> AssistEligible(roster[i], r, wonRound))
        && kastRounds[i] == kastBefore[i] + Count(KastRound(roster[i], r, assisted))
    {
      PlayerCredited(start[i], afterKills[i], afterAssists[i], performances[i], roster[i], r, wonRound,
        kastBefore[i], kastRounds[i], killFlags[i], survivorFlags[i], kastThisRound[i]);
    }
  }

  /** One player's record through the steps of the round update: the kill
      events, the survivor flag, the assist draw and the closing count add up
      to CreditRound, with the KAST count grown by KastRound. */
  lemma PlayerCredited(
    start: PlayerMapPerformance, afterKills: PlayerMapPerformance, afterAssists: PlayerMapPerformance,
    final: PlayerMapPerformance, p: Player, r: RoundResult, won: bool,
    kastBefore: int, kastAfter: int, killFlag: bool, survivorFlag: bool, flag: bool)
    requires afterKills == KillCredit(start, p.id, r.kills)
    requires killFlag == (KillsBy(r.kills, p.id) > 0 || TradedDeaths(r.kills, p.id) > 0)
    requires survivorFlag == (killFlag || HasId(r.survivors, p.id))
    requires afterAssists == afterKills.(assists := afterAssists.assists)
    requires afterAssists.assists == afterKills.assists
      || (afterAssists.assists == afterKills.assists + 1 && AssistEligible(p, r, won))
    requires flag == (survivorFlag || afterAssists.assists != afterKills.assists)
    requires final == MultiKillCredit(afterAssists, KillsBy(r.kills, p.id))
    requires kastAfter == kastBefore + Count(flag)
    ensures var assisted := final.assists != start.assists;
      && final == CreditRound(start, p, r, assisted)
      && (assisted ==> AssistEligible(p, r, won))
      && kastAfter == kastBefore + Count(KastRound(p, r, assisted))
  {
  }

  // ---------------------------------------------------------------------
  // End-of-map statistics
  // ---------------------------------------------------------------------

  /** K/D: kills per death, or the kill count for a deathless player. */
  function KillDeathRatio(kills: int, deaths: int): real
  {
    if deaths > 0 then kills as real / deaths as real else kills as real
  }

  /** Average combat score: 150 per kill and 50 per assist, per round. */
  function CombatScore(kills: int, assists: int, totalRounds: int): int
    requires totalRounds > 0
  {
    Round((kills * 150 + assists * 50) as real / totalRounds as real)
  }

  /** KAST: the percentage of rounds counted. */
  function KastPercent(kastRounds: int, totalRounds: int): int
    requires totalRounds > 0
  {
    Round(kastRounds as real / totalRounds as real * 100.0)
  }

  /** The map's closing statistics: K/D, per-round rates, ACS, ADR at 70% of
      ACS, KAST, and the economy rating from K/D. */
  function Finalized(perf: PlayerMapPerformance, totalRounds: int, kastRounds: int): PlayerMapPerformance
    requires totalRounds > 0
  {
    var total := totalRounds as real;
    var kd := KillDeathRatio(perf.kills, perf.deaths);
    var acs := CombatScore(perf.kills, perf.assists, totalRounds);
    perf.(
      kd := kd,
      kpr := perf.kills as real / total,
      apr := perf.assists as real / total,
      fkpr := perf.firstKills as real / total,
      fdpr := perf.firstDeaths as real / total,
      acs := acs,
      adr := Round(acs as real * 0.7),
      kast := KastPercent(kastRounds, totalRounds),
      econRating := Round(50.0 + (kd - 1.0) * 20.0))
  }

  method FinalizePerformances(performances: array<PlayerMapPerformance>, totalRounds: int, kastRounds: array<int>)
    requires totalRounds > 0
    requires performances.Length == kastRounds.Length
    modifies performances
    ensures forall i :: 0 <= i < performances.Length ==>
      performances[i] == Finalized(old(performances[i]), totalRounds, kastRounds[i])
  {
    for idx := 0 to performances.Length
      invariant forall i :: 0 <= i < idx ==>
        performances[i] == Finalized(old(performances[i]), totalRounds, kastRounds[i])
      invariant forall i :: idx <= i < performances.Length ==> performances[i] == old(performances[i])
    {
      var perf := performances[idx];
      var total := totalRounds as real;
      var kd := if perf.deaths > 0 then perf.kills as real / perf.deaths as real else perf.kills as real;
      perf := perf.(kd := kd);
      perf := perf.(kpr := perf.kills as real / total);
      perf := perf.(apr := perf.assists as real / total);
      perf := perf.(fkpr := perf.firstKills as real / total);
      perf := perf.(fdpr := perf.firstDeaths as real / total);
      perf := perf.(acs := Round((perf.kills * 150 + perf.assists * 50) as real / total));
      perf := perf.(adr := Round(perf.acs as real * 0.7));
      perf := perf.(kast := Round(kastRounds[idx] as real / total * 100.0));
      perf := perf.(econRating := Round(50.0 + (perf.kd - 1.0) * 20.0));
      performances[idx] := perf;
    }
  }

  /** K/D is non-negative, equals the kill count without deaths, and times
      the deaths gives back the kills. */
  lemma KillDeathRatioFacts(kills: int, deaths: int)
    requires kills >= 0 && deaths >= 0
    ensures KillDeathRatio(kills, deaths) >= 0.0
    ensures deaths == 0 ==> KillDeathRatio(kills, deaths) == kills as real
    ensures deaths > 0 ==> KillDeathRatio(kills, deaths) * deaths as real == kills as real
  {
    if deaths > 0 {
      var q := kills as real / deaths as real;
      assert q * deaths as real == kills as real;
      QuotientNonNegative(kills as real, deaths as real);
    }
  }

  lemma QuotientNonNegative(x: real, y: real)
    requires x >= 0.0 && y > 0.0
    ensures x / y >= 0.0
  {
  }

  lemma CombatScoreNonNegative(kills: int, assists: int, totalRounds: int)
    requires kills >= 0 && assists >= 0 && totalRounds > 0
    ensures CombatScore(kills, assists, totalRounds) >= 0
    ensures Round(CombatScore(kills, assists, totalRounds) as real * 0.7) >= 0
  {
    var x := (kills * 150 + assists * 50) as real;
    var q := x / totalRounds as real;
    assert q * totalRounds as real == x;
    if q < 0.0 {
      assert q * totalRounds as real < 0.0;
    }
    assert Round(q) >= 0;
  }

  lemma KastPercentWithin(kastRounds: int, totalRounds: int)
    requires 0 <= kastRounds <= totalRounds && totalRounds > 0
    ensures 0 <= KastPercent(kastRounds, totalRounds) <= 100
  {
    var q := kastRounds as real / totalRounds as real;
    assert q * totalRounds as real == kastRounds as real;
    RoundWithin(q * 100.0, 0, 100);
  }

  /** With non-negative counters and at most one KAST round per round played,
      the closing statistics are in range: K/D is non-negative and equals the
      kill count for a deathless player, K/D times deaths gives back the
      kills, ACS and ADR are non-negative, and KAST is a percentage. */
  lemma {:induction false} FinalizedInRange(perf: PlayerMapPerformance, totalRounds: int, kastRounds: int)
    requires totalRounds > 0
    requires perf.kills >= 0 && perf.deaths >= 0 && perf.assists >= 0
    requires 0 <= kastRounds <= totalRounds
    ensures var f := Finalized(perf, totalRounds, kastRounds);
      && f.kd >= 0.0
      && (perf.deaths == 0 ==> f.kd == perf.kills as real)
      && (perf.deaths > 0 ==> f.kd * perf.deaths as real == perf.kills as real)
      && f.acs >= 0 && f.adr >= 0
      && 0 <= f.kast <= 100
  {
    KillDeathRatioFacts(perf.kills, perf.deaths);
    CombatScoreNonNegative(perf.kills, perf.assists, totalRounds);
    KastPercentWithin(kastRounds, totalRounds);
  }

  // ---------------------------------------------------------------------
  // The map loop
  // ---------------------------------------------------------------------

  /** Team A attacks in rounds 1-12 and in the odd overtime rounds. */
  predicate TeamAAttacks(roundNum: int)
  {
    roundNum <= 12 || (roundNum > 24 && roundNum % 2 == 1)
  }

  /** The side that attacks in round `roundNum`. */
  function Attackers(rosterA: seq<Player>, rosterB: seq<Player>, roundNum: int): seq<Player>
  {
    if TeamAAttacks(roundNum) then rosterA else rosterB
  }

  /** The side that defends in round `roundNum`. */
  function Defenders(rosterA: seq<Player>, rosterB: seq<Player>, roundNum: int): seq<Player>
  {
    if TeamAAttacks(roundNum) then rosterB else rosterA
  }

  /** Team A takes round `roundNum` when the winning side is the one it
      plays that round. */
  predicate TeamAWinsRound(r: RoundResult, roundNum: int)
  {
    (r.winner == Attack) == TeamAAttacks(roundNum)
  }

  /** A round as the round simulation returns it: the result, who is left
      alive on each side, and the clock when the round stopped. */
  datatype RoundPlay = RoundPlay(
    round: RoundResult, aliveAttackers: seq<Player>, aliveDefenders: seq<Player>, endTime: real)

  /** `p` is a round played with `attackers` attacking `defenders`: the
      round simulation's rules hold of it. */
  ghost predicate PlayedBy(p: RoundPlay, attackers: seq<Player>, defenders: seq<Player>)
  {
    && RoundOutcome(p.round, p.aliveAttackers, p.aliveDefenders, p.endTime)
    && KillsAccounted(attackers, defenders, p.aliveAttackers, p.aliveDefenders, p.round.kills)
    && TradesMarked(p.round.kills, attackers, p.aliveAttackers == [] || p.aliveDefenders == [])
  }

  /** Every round of the sequence, round n at index n - 1, was played with
      the sides of that round. */
  ghost predicate SidesKept(rounds: seq<RoundPlay>, rosterA: seq<Player>, rosterB: seq<Player>)
  {
    forall n {:trigger RoundAt(rounds, n)} :: 1 <= n <= |rounds| ==>
      PlayedBy(RoundAt(rounds, n), Attackers(rosterA, rosterB, n), Defenders(rosterA, rosterB, n))
  }

  /** Round `n` of the map, counting from 1. */
  function RoundAt(rounds: seq<RoundPlay>, n: int): RoundPlay
    requires 1 <= n <= |rounds|
  {
    rounds[n - 1]
  }

  /** Rounds team A won among the first `n`, round k + 1 at index k. */
  function TeamAWinsIn(rounds: seq<RoundPlay>, n: nat): nat
    requires n <= |rounds|
  {
    if n == 0 then 0 else TeamAWinsIn(rounds, n - 1) + Count(TeamAWinsRound(rounds[n - 1].round, n))
  }

  /** Rounds won by team A. */
  function TeamARoundWins(rounds: seq<RoundPlay>): nat
  {
    TeamAWinsIn(rounds, |rounds|)
  }

  /** No proper prefix of the rounds decides the map. */
  predicate UndecidedBefore(rounds: seq<RoundPlay>)
  {
    forall k :: 0 <= k < |rounds| ==> !MapDecided(TeamAWinsIn(rounds, k), k - TeamAWinsIn(rounds, k))
  }

  /** Appending a round leaves the earlier counts alone. */
  lemma {:induction false} TeamAWinsInAppend(rounds: seq<RoundPlay>, r: RoundPlay, n: nat)
    requires n <= |rounds|
    ensures TeamAWinsIn(rounds + [r], n) == TeamAWinsIn(rounds, n)
  {
    if n > 0 {
      TeamAWinsInAppend(rounds, r, n - 1);
      assert (rounds + [r])[n - 1] == rounds[n - 1];
    }
  }

  /** The loop's exit test: 13 rounds with a two-round lead, or a lead of
      any size once 30 rounds have been played. */
  predicate MapDecided(a: int, b: int)
  {
    (a >= 13 && a - b >= 2) || (b >= 13 && b - a >= 2) || (a + b >= 30 && a != b)
  }

  /** The scores a map can end on: 13 to at most 11, a two-round overtime
      win from 14-12 up to 16-14, or 16-15 after the 31st round. */
  predicate ValidFinalScore(a: int, b: int)
  {
    || (a == 13 && 0 <= b <= 11) || (b == 13 && 0 <= a <= 11)
    || (b >= 12 && a == b + 2 && a + b <= 30) || (a >= 12 && b == a + 2 && a + b <= 30)
    || (a + b == 31 && (a == b + 1 || b == a + 1))
  }

  /** The first score at which the exit test passes is a valid final score. */
  lemma FirstDecidedScore(a: int, b: int, a': int, b': int)
    requires 0 <= a && 0 <= b && a + b <= 30 && !MapDecided(a, b)
    requires (a' == a + 1 && b' == b) || (a' == a && b' == b + 1)
    requires MapDecided(a', b')
    ensures ValidFinalScore(a', b')
  {
  }

  /** Records of a team as they leave the map. */
  predicate PerformancesInRange(perfs: seq<PlayerMapPerformance>)
  {
    forall i :: 0 <= i < |perfs| ==>
      perfs[i].kd >= 0.0 && perfs[i].acs >= 0 && perfs[i].adr >= 0 && 0 <= perfs[i].kast <= 100
  }

  /** Counters of a record are non-negative. */
  predicate CountersNonNegative(perf: PlayerMapPerformance)
  {
    perf.kills >= 0 && perf.deaths >= 0 && perf.assists >= 0
  }

  /** A team's records during the map: one per roster player, in roster
      order, with non-negative counters and at most one KAST round per round
      played. */
  predicate RecordsSound(perfs: seq<PlayerMapPerformance>, roster: seq<Player>, kast: seq<int>, played: int)
  {
    && |perfs| == |roster| == |kast|
    && forall i :: 0 <= i < |roster| ==>
      perfs[i].playerId == PerformanceId(roster[i]) && CountersNonNegative(perfs[i]) && 0 <= kast[i] <= played
  }

  /** Crediting a round keeps a team's records sound. */
  lemma {:induction false} CreditKeepsSound(
    before: seq<PlayerMapPerformance>, after: seq<PlayerMapPerformance>, roster: seq<Player>,
    kastBefore: seq<int>, kastAfter: seq<int>, r: RoundResult, won: bool, played: int)
    requires RecordsSound(before, roster, kastBefore, played)
    requires RoundCredited(before, after, roster, kastBefore, kastAfter, r, won)
    ensures RecordsSound(after, roster, kastAfter, played + 1)
  {
    forall i | 0 <= i < |roster|
      ensures after[i].playerId == PerformanceId(roster[i]) && CountersNonNegative(after[i])
        && 0 <= kastAfter[i] <= played + 1
    {
      var assisted := after[i].assists != before[i].assists;
      assert after[i] == CreditRound(before[i], roster[i], r, assisted);
    }
  }

  /** Plays round `roundNum` of the map with the sides of that round and
      credits it to both teams' records; team A wins the round when the
      winning side is the one it plays. */
  method PlayMapRound(
    rosterA: seq<Player>, rosterB: seq<Player>, m: MapName, roundNum: int,
    teamAPerf: array<PlayerMapPerformance>, teamBPerf: array<PlayerMapPerformance>,
    teamAKastCount: array<int>, teamBKastCount: array<int>,
    rand: DrawStream, cursor: nat)
    returns (teamAWon: bool, next: nat, ghost played: RoundPlay)
    requires rosterA != [] && rosterB != []
    requires DistinctIds(rosterA + rosterB) && DistinctIds(rosterB + rosterA)
    requires DistinctIds(rosterA) && DistinctIds(rosterB)
    requires teamAPerf != teamBPerf && teamAKastCount != teamBKastCount
    requires RecordsSound(teamAPerf[..], rosterA, teamAKastCount[..], roundNum - 1)
    requires RecordsSound(teamBPerf[..], rosterB, teamBKastCount[..], roundNum - 1)
    modifies teamAPerf, teamBPerf, teamAKastCount, teamBKastCount
    ensures PlayedBy(played, Attackers(rosterA, rosterB, roundNum), Defenders(rosterA, rosterB, roundNum))
    ensures teamAWon == TeamAWinsRound(played.round, roundNum)
    ensures RoundCredited(old(teamAPerf[..]), teamAPerf[..], rosterA,
                          old(teamAKastCount[..]), teamAKastCount[..], played.round, teamAWon)
    ensures RoundCredited(old(teamBPerf[..]), teamBPerf[..], rosterB,
                          old(teamBKastCount[..]), teamBKastCount[..], played.round, !teamAWon)
    ensures RecordsSound(teamAPerf[..], rosterA, teamAKastCount[..], roundNum)
    ensures RecordsSound(teamBPerf[..], rosterB, teamBKastCount[..], roundNum)
  {
    var round;
    round, teamAWon, next, played := PlayRoundSides(rosterA, rosterB, m, roundNum, rand, cursor);

    ghost var perfA, kastA := teamAPerf[..], teamAKastCount[..];
    next := UpdatePerformancesFromRound(teamAPerf, rosterA, round, teamAWon, teamAKastCount, rand, next);
    CreditKeepsSound(perfA, teamAPerf[..], rosterA, kastA, teamAKastCount[..], round, teamAWon, roundNum - 1);
    ghost var perfB, kastB := teamBPerf[..], teamBKastCount[..];
    next := UpdatePerformancesFromRound(teamBPerf, rosterB, round, !teamAWon, teamBKastCount, rand, next);
    CreditKeepsSound(perfB, teamBPerf[..], rosterB, kastB, teamBKastCount[..], round, !teamAWon, roundNum - 1);
  }

  /** Round `roundNum` with the sides of that round: team A's roster
      attacks when TeamAAttacks says so, team B's otherwise. */
  method PlayRoundSides(rosterA: seq<Player>, rosterB: seq<Player>, m: MapName, roundNum: int,
                        rand: DrawStream, cursor: nat)
    returns (round: RoundResult, teamAWon: bool, next: nat, ghost played: RoundPlay)
    requires rosterA != [] && rosterB != []
    requires DistinctIds(rosterA + rosterB) && DistinctIds(rosterB + rosterA)
    ensures played.round == round
    ensures PlayedBy(played, Attackers(rosterA, rosterB, roundNum), Defenders(rosterA, rosterB, roundNum))
    ensures teamAWon == TeamAWinsRound(round, roundNum)
  {
    var teamAAttacking := TeamAAttacks(roundNum);
    var aliveAttackers, aliveDefenders, endTime;
    if teamAAttacking {
      round, aliveAttackers, aliveDefenders, endTime, next := SimulateRound(rosterA, rosterB, m, rand, cursor);
    } else {
      round, aliveAttackers, aliveDefenders, endTime, next := SimulateRound(rosterB, rosterA, m, rand, cursor);
    }
    teamAWon := (round.winner == Attack && teamAAttacking) || (round.winner == Defense && !teamAAttacking);
    played := RoundPlay(round, aliveAttackers, aliveDefenders, endTime);
  }

  /** How a map's score line ends. */
  predicate ScoreLine(result: MapResult)
  {
    && result.teamAScore + result.teamBScore == result.totalRounds
    && MapDecided(result.teamAScore, result.teamBScore)
    && ValidFinalScore(result.teamAScore, result.teamBScore)
    && (result.winner == TeamA <==> result.teamAScore > result.teamBScore)
    && (result.overtime <==> result.totalRounds > 24)
    && result.overtimeRounds == (if result.overtime then Some(result.totalRounds - 24) else None)
    && result.teamAAttackRounds == result.teamAScore && result.teamADefenseRounds == 0
    && result.teamBAttackRounds == result.teamBScore && result.teamBDefenseRounds == 0
  }

  /** A valid final score has a winner and lasts 13 to 31 rounds. */
  lemma ValidFinalScoreShape(a: int, b: int)
    requires ValidFinalScore(a, b)
    ensures a != b && 13 <= a + b <= 31
  {
  }

  /** The round loop: plays rounds until the exit test passes. Team A
      attacks first, sides switch after round 12 and alternate every
      overtime round; the loop stops on the first decided score, which is a
      valid final score. */
  method PlayRounds(
    rosterA: seq<Player>, rosterB: seq<Player>, m: MapName,
    teamAPerf: array<PlayerMapPerformance>, teamBPerf: array<PlayerMapPerformance>,
    teamAKastCount: array<int>, teamBKastCount: array<int>,
    rand: DrawStream, cursor: nat)
    returns (teamAScore: int, teamBScore: int, next: nat, ghost rounds: seq<RoundPlay>)
    requires rosterA != [] && rosterB != []
    requires DistinctIds(rosterA + rosterB) && DistinctIds(rosterB + rosterA)
    requires DistinctIds(rosterA) && DistinctIds(rosterB)
    requires teamAPerf != teamBPerf && teamAKastCount != teamBKastCount
    requires RecordsSound(teamAPerf[..], rosterA, teamAKastCount[..], 0)
    requires RecordsSound(teamBPerf[..], rosterB, teamBKastCount[..], 0)
    modifies teamAPerf, teamBPerf, teamAKastCount, teamBKastCount
    ensures MapDecided(teamAScore, teamBScore) && ValidFinalScore(teamAScore, teamBScore)
    ensures teamAScore >= 0 && teamBScore >= 0
    ensures RoundsSoFar(rounds, rosterA, rosterB, teamAScore, teamBScore)
    ensures RecordsSound(teamAPerf[..], rosterA, teamAKastCount[..], teamAScore + teamBScore)
    ensures RecordsSound(teamBPerf[..], rosterB, teamBKastCount[..], teamAScore + teamBScore)
  {
    teamAScore, teamBScore := 0, 0;
    var totalRounds := 0;
    next := cursor;
    rounds := [];
    while true
      invariant 0 <= teamAScore && 0 <= teamBScore && totalRounds == teamAScore + teamBScore <= 30
      invariant !MapDecided(teamAScore, teamBScore)
      invariant RoundsSoFar(rounds, rosterA, rosterB, teamAScore, teamBScore)
      invariant RecordsSound(teamAPerf[..], rosterA, teamAKastCount[..], totalRounds)
      invariant RecordsSound(teamBPerf[..], rosterB, teamBKastCount[..], totalRounds)
      decreases 30 - totalRounds
    {
      ghost var prevA, prevB := teamAScore, teamBScore;
      totalRounds := totalRounds + 1;
      teamAScore, teamBScore, next, rounds := NextRound(
        rosterA, rosterB, m, teamAPerf, teamBPerf, teamAKastCount, teamBKastCount,
        teamAScore, teamBScore, rounds, rand, next);

      // the three exit checks: 13 with a two-round lead either way, or a
      // lead of any size once 30 rounds have been played
      if MapDecided(teamAScore, teamBScore) {
        FirstDecidedScore(prevA, prevB, teamAScore, teamBScore);
      }
      if MapDecided(teamAScore, teamBScore) {
        break;
      }
    }
  }

  /** One pass of the round loop: the next round is played and credited to
      both teams, and the side that won it scores. */
  method NextRound(
    rosterA: seq<Player>, rosterB: seq<Player>, m: MapName,
    teamAPerf: array<PlayerMapPerformance>, teamBPerf: array<PlayerMapPerformance>,
    teamAKastCount: array<int>, teamBKastCount: array<int>,
    teamAScore: int, teamBScore: int, ghost rounds: seq<RoundPlay>, rand: DrawStream, cursor: nat)
    returns (newAScore: int, newBScore: int, next: nat, ghost newRounds: seq<RoundPlay>)
    requires rosterA != [] && rosterB != []
    requires DistinctIds(rosterA + rosterB) && DistinctIds(rosterB + rosterA)
    requires DistinctIds(rosterA) && DistinctIds(rosterB)
    requires teamAPerf != teamBPerf && teamAKastCount != teamBKastCount
    requires RoundsSoFar(rounds, rosterA, rosterB, teamAScore, teamBScore) && !MapDecided(teamAScore, teamBScore)
    requires RecordsSound(teamAPerf[..], rosterA, teamAKastCount[..], teamAScore + teamBScore)
    requires RecordsSound(teamBPerf[..], rosterB, teamBKastCount[..], teamAScore + teamBScore)
    modifies teamAPerf, teamBPerf, teamAKastCount, teamBKastCount
    ensures |newRounds| == |rounds| + 1 && newRounds[..|rounds|] == rounds
    ensures (newAScore, newBScore) == (teamAScore + 1, teamBScore) || (newAScore, newBScore) == (teamAScore, teamBScore + 1)
    ensures RoundsSoFar(newRounds, rosterA, rosterB, newAScore, newBScore)
    ensures RecordsSound(teamAPerf[..], rosterA, teamAKastCount[..], newAScore + newBScore)
    ensures RecordsSound(teamBPerf[..], rosterB, teamBKastCount[..], newAScore + newBScore)
  {
    var roundNum := teamAScore + teamBScore + 1;
    var teamAWon;
    ghost var played;
    teamAWon, next, played := PlayMapRound(
      rosterA, rosterB, m, roundNum, teamAPerf, teamBPerf, teamAKastCount, teamBKastCount, rand, cursor);
    if teamAWon {
      newAScore, newBScore := teamAScore + 1, teamBScore;
    } else {
      newAScore, newBScore := teamAScore, teamBScore + 1;
    }
    RoundAppended(rounds, played, rosterA, rosterB, roundNum, teamAWon, teamAScore, teamBScore, newAScore, newBScore);
    newRounds := rounds + [played];
  }

  /** The rounds of a map in progress at score `a`-`b`: one per round
      played, each with its round's sides, team A's wins counting `a`, and
      no earlier score deciding the map. */
  ghost predicate RoundsSoFar(rounds: seq<RoundPlay>, rosterA: seq<Player>, rosterB: seq<Player>, a: int, b: int)
  {
    && |rounds| == a + b && a == TeamARoundWins(rounds)
    && SidesKept(rounds, rosterA, rosterB) && UndecidedBefore(rounds)
  }

  /** Appending round `roundNum`, the one after `rounds`, to a map still
      undecided: the side that won it scores. */
  lemma RoundAppended(
    rounds: seq<RoundPlay>, r: RoundPlay, rosterA: seq<Player>, rosterB: seq<Player>, roundNum: int,
    teamAWon: bool, a: int, b: int, a': int, b': int)
    requires RoundsSoFar(rounds, rosterA, rosterB, a, b) && !MapDecided(a, b) && roundNum == a + b + 1
    requires PlayedBy(r, Attackers(rosterA, rosterB, roundNum), Defenders(rosterA, rosterB, roundNum))
    requires teamAWon == TeamAWinsRound(r.round, roundNum)
    requires (a', b') == if teamAWon then (a + 1, b) else (a, b + 1)
    ensures RoundsSoFar(rounds + [r], rosterA, rosterB, a', b') && (rounds + [r])[..|rounds|] == rounds
  {
    SidesAppended(rounds, r, rosterA, rosterB, roundNum);
    ScoreAppended(rounds, r, roundNum, teamAWon, a, b, a', b');
  }

  lemma SidesAppended(rounds: seq<RoundPlay>, r: RoundPlay, rosterA: seq<Player>, rosterB: seq<Player>, roundNum: int)
    requires SidesKept(rounds, rosterA, rosterB) && roundNum == |rounds| + 1
    requires PlayedBy(r, Attackers(rosterA, rosterB, roundNum), Defenders(rosterA, rosterB, roundNum))
    ensures SidesKept(rounds + [r], rosterA, rosterB)
  {
    var next := rounds + [r];
    forall n | 1 <= n <= |next|
      ensures PlayedBy(RoundAt(next, n), Attackers(rosterA, rosterB, n), Defenders(rosterA, rosterB, n))
    {
      if n <= |rounds| {
        assert RoundAt(next, n) == RoundAt(rounds, n);
      } else {
        assert RoundAt(next, n) == r && n == roundNum;
      }
    }
  }

  lemma ScoreAppended(rounds: seq<RoundPlay>, r: RoundPlay, roundNum: int, teamAWon: bool, a: int, b: int, a': int, b': int)
    requires |rounds| == a + b && a == TeamARoundWins(rounds) && UndecidedBefore(rounds) && !MapDecided(a, b)
    requires roundNum == |rounds| + 1 && teamAWon == TeamAWinsRound(r.round, roundNum)
    requires (a', b') == if teamAWon then (a + 1, b) else (a, b + 1)
    ensures var n := rounds + [r];
      |n| == a' + b' && TeamARoundWins(n) == a' && UndecidedBefore(n) && n[..|rounds|] == rounds
  {
    var next := rounds + [r];
    forall k | 0 <= k <= |rounds| ensures TeamAWinsIn(next, k) == TeamAWinsIn(rounds, k) {
      TeamAWinsInAppend(rounds, r, k);
    }
    assert next[..|rounds|] == rounds;
  }

  /** Keyed records: one per roster player, in roster order. */
  predicate KeyedBy(perfs: seq<PlayerMapPerformance>, roster: seq<Player>)
  {
    |perfs| == |roster| && forall i :: 0 <= i < |roster| ==> perfs[i].playerId == PerformanceId(roster[i])
  }

  /** One map: the round loop, then the closing statistics. The map ends on
      a valid final score and every record leaves the map in range. */
  method SimulateMap(teamA: Team, teamB: Team, m: MapName, rand: DrawStream, cursor: nat)
    returns (result: MapResult, next: nat, ghost rounds: seq<RoundPlay>)
    requires teamA.roster != [] && teamB.roster != []
    requires DistinctIds(teamA.roster + teamB.roster)
    ensures result.mapName == m
    ensures ScoreLine(result)
    ensures RoundsSoFar(rounds, teamA.roster, teamB.roster, result.teamAScore, result.teamBScore)
    ensures KeyedBy(result.teamAPerformances, teamA.roster) && KeyedBy(result.teamBPerformances, teamB.roster)
    ensures PerformancesInRange(result.teamAPerformances) && PerformancesInRange(result.teamBPerformances)
  {
    var rosterA, rosterB := teamA.roster, teamB.roster;
    DistinctParts(rosterA, rosterB);
    DistinctSwap(rosterA, rosterB);
    var initA, initB := InitializePerformances(rosterA), InitializePerformances(rosterB);
    var teamAPerf := new PlayerMapPerformance[|rosterA|](i requires 0 <= i < |rosterA| => initA[i]);
    var teamBPerf := new PlayerMapPerformance[|rosterB|](i requires 0 <= i < |rosterB| => initB[i]);
    var teamAKastCount := new int[|rosterA|](_ => 0);
    var teamBKastCount := new int[|rosterB|](_ => 0);

    var teamAScore, teamBScore;
    teamAScore, teamBScore, next, rounds := PlayRounds(
      rosterA, rosterB, m, teamAPerf, teamBPerf, teamAKastCount, teamBKastCount, rand, cursor);
    var totalRounds := teamAScore + teamBScore;
    FinalizeSide(teamAPerf, rosterA, totalRounds, teamAKastCount);
    FinalizeSide(teamBPerf, rosterB, totalRounds, teamBKastCount);
    result := FinalScore(m, teamAScore, teamBScore, teamAPerf[..], teamBPerf[..]);
  }

  /** The map's result at a final score: the higher score wins, the map
      went to overtime when it lasted beyond 24 rounds, and the records
      are carried as given. */
  function FinalScore(
    m: MapName, teamAScore: int, teamBScore: int,
    teamAPerformances: seq<PlayerMapPerformance>, teamBPerformances: seq<PlayerMapPerformance>): (result: MapResult)
    requires MapDecided(teamAScore, teamBScore) && ValidFinalScore(teamAScore, teamBScore)
    ensures ScoreLine(result) && result.mapName == m
    ensures result.teamAScore == teamAScore && result.teamBScore == teamBScore
    ensures result.teamAPerformances == teamAPerformances && result.teamBPerformances == teamBPerformances
  {
    ValidFinalScoreShape(teamAScore, teamBScore);
    var totalRounds := teamAScore + teamBScore;
    var winner := if teamAScore > teamBScore then TeamA else TeamB;
    var overtime := totalRounds > 24;
    MapResult(
      m, teamAScore, teamBScore, winner,
      teamAScore, 0, teamBScore, 0,
      teamAPerformances, teamBPerformances,
      totalRounds, overtime, if overtime then Some(totalRounds - 24) else None)
  }

  /** One team's closing statistics, in range and still one per player. */
  method FinalizeSide(perf: array<PlayerMapPerformance>, roster: seq<Player>, totalRounds: int, kast: array<int>)
    requires totalRounds > 0
    requires RecordsSound(perf[..], roster, kast[..], totalRounds)
    modifies perf
    ensures PerformancesInRange(perf[..]) && KeyedBy(perf[..], roster)
  {
    ghost var before := perf[..];
    FinalizePerformances(perf, totalRounds, kast);
    FinalizedRecords(perf[..], before, roster, totalRounds, kast[..]);
  }

  lemma {:induction false} FinalizedRecords(
    after: seq<PlayerMapPerformance>, before: seq<PlayerMapPerformance>, roster: seq<Player>,
    totalRounds: int, kast: seq<int>)
    requires totalRounds > 0
    requires RecordsSound(before, roster, kast, totalRounds)
    requires |after| == |before|
    requires forall i :: 0 <= i < |before| ==> after[i] == Finalized(before[i], totalRounds, kast[i])
    ensures PerformancesInRange(after) && KeyedBy(after, roster)
  {
    forall i | 0 <= i < |after|
      ensures after[i].kd >= 0.0 && after[i].acs >= 0 && after[i].adr >= 0 && 0 <= after[i].kast <= 100
    {
      FinalizedInRange(before[i], totalRounds, kast[i]);
    }
  }

  lemma DistinctSwap(a: seq<Player>, b: seq<Player>)
    requires DistinctIds(a + b)
    ensures DistinctIds(b + a)
  {
    var ab, ba := a + b, b + a;
    forall i, j | 0 <= i < j < |ba| ensures ba[i].id != ba[j].id {
      var i' := if i < |b| then |a| + i else i - |b|;
      var j' := if j < |b| then |a| + j else j - |b|;
      assert ba[i] == ab[i'] && ba[j] == ab[j'];
    }
  }

  // ---------------------------------------------------------------------
  // The best-of-three series
  // ---------------------------------------------------------------------

  /** The players who take part in a match: the first five non-reserves. */
  function MatchRoster(roster: seq<Player>): (r: seq<Player>)
    ensures |r| == if |ActivePlayers(roster)| <= 5 then |ActivePlayers(roster)| else 5
    ensures r == ActivePlayers(roster)[..|r|]
    ensures forall p :: p in r ==> p in roster && IsActive(p)
  {
    var active := ActivePlayers(roster);
    if |active| <= 5 then active else active[..5]
  }

  /** Maps won by one side. */
  function Wins(results: seq<MapResult>, side: TeamTag): nat
  {
    if results == [] then 0
    else Wins(results[..|results| - 1], side) + Count(results[|results| - 1].winner == side)
  }

  /** A finished best-of-three: two or three maps, played on the given maps
      in order, each ending on a valid score; exactly one side reaches two
      wins, and only with the last map. */
  predicate SeriesOver(results: seq<MapResult>, maps: seq<MapName>)
  {
    && 2 <= |results| <= 3 && |results| <= |maps|
    && (forall k :: 0 <= k < |results| ==> results[k].mapName == maps[k] && ScoreLine(results[k]))
    && (Wins(results, TeamA) == 2) != (Wins(results, TeamB) == 2)
    && (forall k :: 0 <= k < |results| ==> Wins(results[..k], TeamA) < 2 && Wins(results[..k], TeamB) < 2)
  }

  lemma {:induction false} WinsSplit(results: seq<MapResult>)
    ensures Wins(results, TeamA) + Wins(results, TeamB) == |results|
  {
    if results != [] {
      WinsSplit(results[..|results| - 1]);
    }
  }

  /** Maps played in order so far, each on a valid score. */
  predicate MapsPlayed(results: seq<MapResult>, maps: seq<MapName>)
  {
    && |results| <= |maps|
    && forall k :: 0 <= k < |results| ==> results[k].mapName == maps[k] && ScoreLine(results[k])
  }

  /** Every map's records: one per roster player of each side. */
  predicate MapsKeyed(results: seq<MapResult>, rosterA: seq<Player>, rosterB: seq<Player>)
  {
    forall k :: 0 <= k < |results| ==>
      KeyedBy(results[k].teamAPerformances, rosterA) && KeyedBy(results[k].teamBPerformances, rosterB)
  }

  /** The next map's records are keyed by the same rosters. */
  lemma KeyedAppended(results: seq<MapResult>, r: MapResult, rosterA: seq<Player>, rosterB: seq<Player>)
    requires MapsKeyed(results, rosterA, rosterB)
    requires KeyedBy(r.teamAPerformances, rosterA) && KeyedBy(r.teamBPerformances, rosterB)
    ensures MapsKeyed(results + [r], rosterA, rosterB)
  {
    var next := results + [r];
    forall k | 0 <= k < |next|
      ensures KeyedBy(next[k].teamAPerformances, rosterA) && KeyedBy(next[k].teamBPerformances, rosterB)
    {
      if k < |results| {
        assert next[k] == results[k];
      }
    }
  }

  /** No side had two wins before any of the maps. */
  predicate NoEarlyWinner(results: seq<MapResult>)
  {
    forall k :: 0 <= k < |results| ==> Wins(results[..k], TeamA) < 2 && Wins(results[..k], TeamB) < 2
  }

  /** Playing the next map on the next map name. */
  lemma MapAppended(results: seq<MapResult>, r: MapResult, maps: seq<MapName>)
    requires MapsPlayed(results, maps)
    requires |results| < |maps| && r.mapName == maps[|results|] && ScoreLine(r)
    ensures MapsPlayed(results + [r], maps)
  {
  }

  /** Playing another map while neither side has two wins. */
  lemma WinsAppended(results: seq<MapResult>, r: MapResult)
    requires NoEarlyWinner(results) && Wins(results, TeamA) < 2 && Wins(results, TeamB) < 2
    ensures NoEarlyWinner(results + [r])
    ensures Wins(results + [r], TeamA) == Wins(results, TeamA) + Count(r.winner == TeamA)
    ensures Wins(results + [r], TeamB) == Wins(results, TeamB) + Count(r.winner == TeamB)
  {
    var next := results + [r];
    assert next[..|results|] == results;
    forall k | 0 <= k < |results| ensures next[..k] == results[..k] {
    }
  }

  /** Plays maps in order until one side has won two of them. */
  method SimulateBestOf3(teamA: Team, teamB: Team, maps: seq<MapName>, rand: DrawStream, cursor: nat)
    returns (results: seq<MapResult>, next: nat)
    requires |maps| == 3
    requires MatchRoster(teamA.roster) != [] && MatchRoster(teamB.roster) != []
    requires DistinctIds(MatchRoster(teamA.roster) + MatchRoster(teamB.roster))
    ensures SeriesOver(results, maps)
    ensures forall k :: 0 <= k < |results| ==>
      KeyedBy(results[k].teamAPerformances, MatchRoster(teamA.roster))
      && KeyedBy(results[k].teamBPerformances, MatchRoster(teamB.roster))
  {
    results := [];
    var teamAWins, teamBWins := 0, 0;
    var activeTeamA := teamA.(roster := MatchRoster(teamA.roster));
    var activeTeamB := teamB.(roster := MatchRoster(teamB.roster));
    next := cursor;
    var i := 0;
    while i < 3 && teamAWins != 2 && teamBWins != 2
      invariant 0 <= i <= 3 && |results| == i
      invariant teamAWins == Wins(results, TeamA) && teamBWins == Wins(results, TeamB)
      invariant teamAWins + teamBWins == i
      invariant teamAWins <= 2 && teamBWins <= 2 && !(teamAWins == 2 && teamBWins == 2)
      invariant MapsPlayed(results, maps) && NoEarlyWinner(results)
      invariant MapsKeyed(results, activeTeamA.roster, activeTeamB.roster)
    {
      var mapResult;
      ghost var rounds;
      mapResult, next, rounds := SimulateMap(activeTeamA, activeTeamB, maps[i], rand, next);
      MapAppended(results, mapResult, maps);
      WinsAppended(results, mapResult);
      KeyedAppended(results, mapResult, activeTeamA.roster, activeTeamB.roster);
      results := results + [mapResult];
      if mapResult.winner == TeamA {
        teamAWins := teamAWins + 1;
      } else {
        teamBWins := teamBWins + 1;
      }
      i := i + 1;
    }
  }

  // ---------------------------------------------------------------------
  // KAST as written: the counter is set to 1, not incremented
  // ---------------------------------------------------------------------

  /** A player's KAST counter over a map as the round update writes it: a
      flagged round sets it to 1, and nothing ever adds to it. */
  function StickyKast(flags: seq<bool>): int
  {
    if flags == [] then 0
    else if flags[|flags| - 1] then 1
    else StickyKast(flags[..|flags| - 1])
  }

  /** The counter as intended: one per round that counts towards KAST. */
  function CountedKast(flags: seq<bool>): nat
  {
    if flags == [] then 0 else CountedKast(flags[..|flags| - 1]) + Count(flags[|flags| - 1])
  }

  lemma {:induction false} StickyKastAtMostOne(flags: seq<bool>)
    ensures 0 <= StickyKast(flags) <= 1
  {
    if flags != [] && !flags[|flags| - 1] {
      StickyKastAtMostOne(flags[..|flags| - 1]);
    }
  }

  /** As written, no player's KAST on a map of 13 or more rounds exceeds 8%. */
  lemma {:induction false} AsWrittenKastCapped(flags: seq<bool>)
    requires |flags| >= 13
    ensures KastPercent(StickyKast(flags), |flags|) <= 8
  {
    StickyKastAtMostOne(flags);
    var k, t := StickyKast(flags), |flags| as real;
    var q := k as real / t;
    assert q * t == k as real;
    assert q * 13.0 <= q * t;
    assert q * 100.0 <= 8.0;
    RoundWithin(q * 100.0, 0, 8);
  }

  /** A 13-0 map on which the player counts every round: 8% as written, 100%
      as intended. */
  lemma KastCounterexample()
    ensures KastPercent(StickyKast(seq(13, _ => true)), 13) == 8
    ensures KastPercent(CountedKast(seq(13, _ => true)), 13) == 100
  {
    var flags: seq<bool> := seq(13, _ => true);
    assert flags[..12] == seq(12, _ => true);
    CountedKastAllRounds(flags);
    assert 8.0 <= 1.0 / 13.0 * 100.0 + 0.5 < 9.0;
  }

  /** Counted as intended, KAST is a percentage, 100 for a player who counts
      every round and 0 for one who counts none. */
  lemma {:induction false} CountedKastAllRounds(flags: seq<bool>)
    ensures CountedKast(flags) <= |flags|
    ensures (forall k :: 0 <= k < |flags| ==> flags[k]) ==> CountedKast(flags) == |flags|
    ensures (forall k :: 0 <= k < |flags| ==> !flags[k]) ==> CountedKast(flags) == 0
  {
    if flags != [] {
      var init := flags[..|flags| - 1];
      CountedKastAllRounds(init);
      assert forall k :: 0 <= k < |init| ==> init[k] == flags[k];
    }
  }

  lemma CountedKastPercent(flags: seq<bool>)
    requires flags != []
    ensures 0 <= KastPercent(CountedKast(flags), |flags|) <= 100
    ensures (forall k :: 0 <= k < |flags| ==> flags[k]) ==> KastPercent(CountedKast(flags), |flags|) == 100
  {
    CountedKastAllRounds(flags);
    KastPercentWithin(CountedKast(flags), |flags|);
  }

  // ---------------------------------------------------------------------
  // Multi-kills as written: credited once per kill event
  // ---------------------------------------------------------------------

  /** Tier-`tier` multi-kills credited to a player by the events `events` as
      the round update writes it: each of the player's kill events adds one
      whenever the player's kill total for the whole round equals the tier. */
  function AsWrittenTierCredit(events: seq<KillEvent>, round: seq<KillEvent>, id: string, tier: nat): nat
  {
    if events == [] then 0
    else
      var e := events[|events| - 1];
      AsWrittenTierCredit(events[..|events| - 1], round, id, tier) + Count(e.killer.id == id && KillsBy(round, id) == tier)
  }

  /** As written, a player who makes n kills in a round is credited n
      multi-kills of tier n instead of one. */
  lemma {:induction false} AsWrittenTierCreditCount(events: seq<KillEvent>, round: seq<KillEvent>, id: string, tier: nat)
    ensures AsWrittenTierCredit(events, round, id, tier) == if KillsBy(round, id) == tier then KillsBy(events, id) else 0
  {
    if events != [] {
      AsWrittenTierCreditCount(events[..|events| - 1], round, id, tier);
    }
  }

  /** One double kill: credited twice as written, once as intended. */
  lemma MultiKillCounterexample(before: PlayerMapPerformance, p: Player, victim1: Player, victim2: Player)
    requires p.id != victim1.id && p.id != victim2.id
    ensures var kills := [KillEvent(p, victim1, 10.0, false), KillEvent(p, victim2, 12.0, false)];
      && AsWrittenTierCredit(kills, kills, p.id, 2) == 2
      && CreditRound(before, p, RoundResult(Attack, Elimination, kills, [p], false, None), false).doubleKills
         == before.doubleKills + 1
  {
    var kills := [KillEvent(p, victim1, 10.0, false), KillEvent(p, victim2, 12.0, false)];
    assert kills[..1][..0] == [];
    assert KillsBy(kills[..1], p.id) == 1;
    assert KillsBy(kills, p.id) == 2;
    AsWrittenTierCreditCount(kills, kills, p.id, 2);
  }

  /** As intended, a round credits at most one multi-kill, of the tier equal
      to the player's kill count, and only for two to five kills. */
  lemma CreditRoundMultiKill(before: PlayerMapPerformance, p: Player, r: RoundResult, assisted: bool)
    ensures var after := CreditRound(before, p, r, assisted);
      var n := KillsBy(r.kills, p.id);
      && (after.doubleKills - before.doubleKills) + (after.tripleKills - before.tripleKills)
         + (after.quadraKills - before.quadraKills) + (after.aceKills - before.aceKills)
         == Count(2 <= n <= 5)
      && after.kills == before.kills + n
  {
  }
}
