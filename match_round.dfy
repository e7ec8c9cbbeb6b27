/** The round half of the match engine (src/utils/matchSimulator.ts):
    side-weighted team strength, the weighted choice of a player by one stat,
    a single kill engagement, and the round state machine with its trade pass.
    Every Math.random() call is one draw of an injected stream. */
module MatchRound {
  import opened Types

  /** Seconds the attackers have to plant. */
  const PlantTime: real := 90.0
  /** Seconds from plant to detonation. */
  const DefuseTime: real := 45.0
  /** A kill avenged within this many seconds is a trade. */
  const TradeWindow: real := 3.0
  /** Seconds of bomb timer a defuse needs, strictly more than this. */
  const DefuseNeeded: real := 7.0

  datatype Side = Attack | Defense

  datatype WinCondition = Elimination | BombDetonated | BombDefused | TimeExpired

  datatype KillEvent = KillEvent(killer: Player, victim: Player, timestamp: real, wasTraded: bool)

  datatype RoundResult = RoundResult(
    winner: Side,
    winCondition: WinCondition,
    kills: seq<KillEvent>,
    survivors: seq<Player>,
    bombPlanted: bool,
    plantTime: Option<real>)

  // ---------------------------------------------------------------------
  // Per-player values and their sums
  // ---------------------------------------------------------------------

  /** The players' values of `stat`, in team order. */
  function Weights(team: seq<Player>, stat: StatKey): (w: seq<real>)
    ensures |w| == |team|
    ensures forall i :: 0 <= i < |team| ==> w[i] == team[i].stats.Get(stat)
  {
    seq(|team|, i requires 0 <= i < |team| => team[i].stats.Get(stat))
  }

  /** Sum of the first k values (the reduce over a prefix). */
  function PrefixSum(w: seq<real>, k: nat): real
    requires k <= |w|
  {
    if k == 0 then 0.0 else PrefixSum(w, k - 1) + w[k - 1]
  }

  /** The sum of the whole list. */
  function Total(w: seq<real>): real
  {
    PrefixSum(w, |w|)
  }

  /** The largest value of a non-empty list. */
  function MaxOf(w: seq<real>): (r: real)
    requires w != []
    ensures forall i :: 0 <= i < |w| ==> w[i] <= r
    ensures exists i :: 0 <= i < |w| && w[i] == r
  {
    if |w| == 1 then w[0]
    else
      var rest := MaxOf(w[..|w| - 1]);
      assert forall i :: 0 <= i < |w| - 1 ==> w[..|w| - 1][i] == w[i];
      MaxR(rest, w[|w| - 1])
  }

  lemma {:induction false} PrefixSumPercent(w: seq<real>, k: nat)
    requires k <= |w|
    requires forall i :: 0 <= i < |w| ==> 0.0 <= w[i] <= 100.0
    ensures 0.0 <= PrefixSum(w, k) <= 100.0 * k as real
  {
    if k > 0 {
      PrefixSumPercent(w, k - 1);
    }
  }

  // ---------------------------------------------------------------------
  // Team strength
  // ---------------------------------------------------------------------

  /** The player's proficiency on the map; a missing or zero entry counts as 70. */
  function MapProficiency(p: Player, m: MapName): real
  {
    if m in p.mapProficiency && p.mapProficiency[m] != 0.0 then p.mapProficiency[m] else 70.0
  }

  /** Base strength of one player's stats on one side. */
  function SideRating(s: Stats, side: Side): real
  {
    s.mechanics * 0.3 +
    (if side == Attack then s.entry * 0.3 + s.lurking * 0.2 + s.clutch * 0.1 + s.support * 0.1
     else s.support * 0.3 + s.clutch * 0.2 + s.mental * 0.1 + s.entry * 0.1)
  }

  function PlayerStrength(p: Player, side: Side, m: MapName): real
  {
    SideRating(p.stats, side) * (MapProficiency(p, m) / 70.0)
  }

  /** The players' strengths on one side of one map, in team order. */
  function Strengths(team: seq<Player>, side: Side, m: MapName): (w: seq<real>)
    ensures |w| == |team|
    ensures forall i :: 0 <= i < |team| ==> w[i] == PlayerStrength(team[i], side, m)
  {
    seq(|team|, i requires 0 <= i < |team| => PlayerStrength(team[i], side, m))
  }

  /** The highest IGL stat of the team. */
  function BestIgl(team: seq<Player>): real
    requires team != []
  {
    MaxOf(Weights(team, Igl))
  }

  /** The best shotcaller's bonus factor. */
  function IglFactor(team: seq<Player>): real
    requires team != []
  {
    1.0 + BestIgl(team) / 100.0 * 0.15
  }

  /** The team's mean vibes. */
  function AverageVibes(team: seq<Player>): real
    requires team != []
  {
    Total(Weights(team, Vibes)) / |team| as real
  }

  /** The average-vibes bonus factor. */
  function VibesFactor(team: seq<Player>): real
    requires team != []
  {
    1.0 + AverageVibes(team) / 100.0 * 0.1
  }

  /** The strength of a side: summed player strength, scaled by the best
      shotcaller and by the average vibes. */
  function TeamStrength(team: seq<Player>, side: Side, m: MapName): real
    requires team != []
  {
    Scaled(Total(Strengths(team, side, m)), IglFactor(team), VibesFactor(team))
  }

  /** A sum scaled by two factors. */
  function Scaled(sum: real, f1: real, f2: real): real
  {
    sum * f1 * f2
  }

  method CalculateTeamStrength(team: seq<Player>, side: Side, m: MapName) returns (strength: real)
    requires team != []
    ensures strength == TeamStrength(team, side, m)
  {
    var total := SumStrengths(team, side, m);
    var iglBonus := IglFactor(team);
    var vibesBonus := VibesFactor(team);
    strength := Scaled(total, iglBonus, vibesBonus);
  }

  /** The forEach over the team: each player's strength added to the
      running total. */
  method SumStrengths(team: seq<Player>, side: Side, m: MapName) returns (total: real)
    ensures total == Total(Strengths(team, side, m))
  {
    ghost var ws := Strengths(team, side, m);
    total := 0.0;
    for i := 0 to |team|
      invariant total == PrefixSum(ws, i)
    {
      total := total + PlayerStrength(team[i], side, m);
    }
  }

  /** The shotcaller and morale bonuses only scale a non-negative sum up,
      by at most 15% and 10% respectively. */
  lemma {:induction false} StrengthBonusBounds(team: seq<Player>, side: Side, m: MapName)
    requires team != []
    requires forall i :: 0 <= i < |team| ==>
      0.0 <= team[i].stats.igl <= 100.0 && 0.0 <= team[i].stats.vibes <= 100.0
    requires Total(Strengths(team, side, m)) >= 0.0
    ensures Total(Strengths(team, side, m)) <= TeamStrength(team, side, m)
    ensures TeamStrength(team, side, m) <= Total(Strengths(team, side, m)) * 1.15 * 1.1
  {
    IglFactorBounds(team);
    VibesFactorBounds(team);
    var s, f1, f2 := Total(Strengths(team, side, m)), IglFactor(team), VibesFactor(team);
    BoundedScaling(s, f1, f2, TeamStrength(team, side, m));
  }

  lemma IglFactorBounds(team: seq<Player>)
    requires team != []
    requires forall i :: 0 <= i < |team| ==> 0.0 <= team[i].stats.igl <= 100.0
    ensures 1.0 <= IglFactor(team) <= 1.15
  {
    var igl := Weights(team, Igl);
    var k :| 0 <= k < |igl| && igl[k] == MaxOf(igl);
    assert 0.0 <= MaxOf(igl) <= 100.0;
  }

  lemma VibesFactorBounds(team: seq<Player>)
    requires team != []
    requires forall i :: 0 <= i < |team| ==> 0.0 <= team[i].stats.vibes <= 100.0
    ensures 1.0 <= VibesFactor(team) <= 1.1
  {
    var vibes := Weights(team, Vibes);
    PrefixSumPercent(vibes, |team|);
    AverageWithin(PrefixSum(vibes, |team|), |team| as real);
  }

  lemma AverageWithin(total: real, n: real)
    requires n > 0.0 && 0.0 <= total <= 100.0 * n
    ensures 0.0 <= total / n <= 100.0
  {
    assert total / n * n == total;
  }

  /** s * f1 * f2 lies between s and s * 1.15 * 1.1 for the factor ranges above. */
  lemma BoundedScaling(s: real, f1: real, f2: real, t: real)
    requires s >= 0.0 && 1.0 <= f1 <= 1.15 && 1.0 <= f2 <= 1.1
    requires t == s * f1 * f2
    ensures s <= t <= s * 1.15 * 1.1
  {
    assert s * f1 >= s;
    assert s * f1 <= s * 1.15;
    assert s * f1 * f2 >= s * f1;
    assert s * f1 * f2 <= s * f1 * 1.1;
  }

  // ---------------------------------------------------------------------
  // Weighted choice of a player
  // ---------------------------------------------------------------------

  /** The point on the cumulative weights that a draw in [0, 1) picks. */
  function Target(w: seq<real>, draw: real): real
  {
    draw * Total(w)
  }

  /** Index i is the roulette-wheel choice for `draw`: the first player when
      the weights sum to 0; otherwise every earlier cumulative weight falls
      short of the target and the one through i reaches it, or the walk
      falls through and the first player is taken. */
  predicate WeightedPick(team: seq<Player>, stat: StatKey, draw: real, i: nat)
  {
    && i < |team|
    && var w := Weights(team, stat);
       && (Total(w) == 0.0 ==> i == 0)
       && (Total(w) != 0.0 ==> forall k :: 1 <= k <= i ==> PrefixSum(w, k) < Target(w, draw))
       && (Total(w) != 0.0 ==>
             Target(w, draw) <= PrefixSum(w, i + 1)
             || (i == 0 && forall k :: 1 <= k <= |w| ==> PrefixSum(w, k) < Target(w, draw)))
  }

  /** Roulette-wheel choice: walks the team subtracting weights from
      draw * total and returns the first index at which the remainder is
      <= 0; the first player when the total is 0 or the walk falls through. */
  method GetRandomWeightedPlayer(team: seq<Player>, stat: StatKey, draw: real) returns (i: nat)
    requires team != []
    ensures WeightedPick(team, stat, draw, i)
  {
    var w := Weights(team, stat);
    var total := Total(w);
    if total == 0.0 {
      return 0;
    }
    var random := draw * total;
    ghost var target := random;
    assert target == Target(w, draw);
    for idx := 0 to |team|
      invariant random == target - PrefixSum(w, idx)
      invariant forall k :: 1 <= k <= idx ==> PrefixSum(w, k) < target
    {
      random := random - team[idx].stats.Get(stat);
      assert random == target - PrefixSum(w, idx + 1);
      if random <= 0.0 {
        return idx;
      }
    }
    return 0;
  }

  /** The pick is a function of the team, the stat and the draw: at most
      one index satisfies `WeightedPick`. */
  lemma WeightedPickUnique(team: seq<Player>, stat: StatKey, draw: real, i: nat, j: nat)
    requires WeightedPick(team, stat, draw, i) && WeightedPick(team, stat, draw, j)
    ensures i == j
  {
  }

  lemma ScaledBelow(d: real, t: real)
    requires 0.0 <= d < 1.0 && t > 0.0
    ensures d * t < t
  {
    assert t - d * t == (1.0 - d) * t;
  }

  /** With a draw in [0, 1) and a positive total, the walk never falls
      through: the whole team's weight exceeds draw * total. */
  lemma RouletteWalkStops(w: seq<real>, draw: real)
    requires 0.0 <= draw < 1.0 && Total(w) > 0.0
    ensures Target(w, draw) < Total(w)
  {
    ScaledBelow(draw, Total(w));
    assert Target(w, draw) == draw * Total(w);
  }

  lemma PositiveProduct(a: real, b: real)
    requires a > 0.0 && b > 0.0
    ensures a * b > 0.0
  {
  }

  /** A positive draw that stops the walk at index i lands on a player of
      positive weight: a zero-weight player is never chosen that way. */
  lemma WeightedChoiceHasWeight(w: seq<real>, draw: real, i: nat)
    requires i < |w|
    requires 0.0 < draw && Total(w) > 0.0
    requires forall k :: 1 <= k <= i ==> PrefixSum(w, k) < Target(w, draw)
    requires Target(w, draw) <= PrefixSum(w, i + 1)
    ensures w[i] > 0.0
  {
    PositiveProduct(draw, Total(w));
    if i > 0 {
      assert PrefixSum(w, i) < Target(w, draw);
    }
    assert PrefixSum(w, i + 1) == PrefixSum(w, i) + w[i];
  }

  // ---------------------------------------------------------------------
  // A kill engagement
  // ---------------------------------------------------------------------

  /** The attack side lands this kill when its randomised strength beats the
      defense's. Uses draws cursor .. cursor + 3. */
  predicate AttackerWinsDuel(attackStrength: real, defenseStrength: real, rand: DrawStream, cursor: nat)
  {
    attackStrength * (0.8 + rand(cursor) * 0.4) > defenseStrength * (0.8 + rand(cursor + 1) * 0.4)
  }

  method SimulateKill(
    aliveAttackers: seq<Player>, aliveDefenders: seq<Player>,
    attackStrength: real, defenseStrength: real,
    rand: DrawStream, cursor: nat)
    returns (killer: Player, victim: Player, victimSide: Side, next: nat)
    requires aliveAttackers != [] && aliveDefenders != []
    ensures next == cursor + 4
    ensures victimSide == Defense <==> AttackerWinsDuel(attackStrength, defenseStrength, rand, cursor)
    ensures victimSide == Defense ==> killer in aliveAttackers && victim in aliveDefenders
    ensures victimSide == Attack ==> killer in aliveDefenders && victim in aliveAttackers
    ensures victimSide == Defense ==>
      exists k: nat, v: nat :: WeightedPick(aliveAttackers, Entry, rand(cursor + 2), k) && killer == aliveAttackers[k]
                  && WeightedPick(aliveDefenders, Mechanics, rand(cursor + 3), v) && victim == aliveDefenders[v]
    ensures victimSide == Attack ==>
      exists k: nat, v: nat :: WeightedPick(aliveDefenders, Entry, rand(cursor + 2), k) && killer == aliveDefenders[k]
                  && WeightedPick(aliveAttackers, Mechanics, rand(cursor + 3), v) && victim == aliveAttackers[v]
  {
    var attackRoll := attackStrength * (0.8 + rand(cursor) * 0.4);
    var defenseRoll := defenseStrength * (0.8 + rand(cursor + 1) * 0.4);
    if attackRoll > defenseRoll {
      var k := GetRandomWeightedPlayer(aliveAttackers, Entry, rand(cursor + 2));
      var v := GetRandomWeightedPlayer(aliveDefenders, Mechanics, rand(cursor + 3));
      killer, victim, victimSide := aliveAttackers[k], aliveDefenders[v], Defense;
    } else {
      var k := GetRandomWeightedPlayer(aliveDefenders, Entry, rand(cursor + 2));
      var v := GetRandomWeightedPlayer(aliveAttackers, Mechanics, rand(cursor + 3));
      killer, victim, victimSide := aliveDefenders[k], aliveAttackers[v], Attack;
    }
    next := cursor + 4;
  }

  // ---------------------------------------------------------------------
  // Lookup by player id
  // ---------------------------------------------------------------------

  /** Some player in the list has that id. */
  predicate HasId(players: seq<Player>, id: string)
  {
    exists i :: 0 <= i < |players| && players[i].id == id
  }

  /** The position of the first player with that id, or -1 when there is none. */
  function FindIndexById(players: seq<Player>, id: string): (r: int)
    ensures -1 <= r < |players|
    ensures r == -1 <==> !HasId(players, id)
    ensures r >= 0 ==> players[r].id == id && forall j :: 0 <= j < r ==> players[j].id != id
  {
    if players == [] then -1
    else if players[0].id == id then 0
    else
      var r := FindIndexById(players[1..], id);
      assert forall j :: 1 <= j < |players| ==> players[1..][j - 1] == players[j];
      if r == -1 then -1 else r + 1
  }

  /** In a list with distinct ids, looking up a member's id finds that member. */
  lemma FindMember(players: seq<Player>, p: Player)
    requires DistinctIds(players) && p in players
    ensures 0 <= FindIndexById(players, p.id) && players[FindIndexById(players, p.id)] == p
  {
    var j :| 0 <= j < |players| && players[j] == p;
    assert HasId(players, p.id);
  }

  /** Cutting position i out of a list with distinct ids removes exactly that player. */
  lemma SpliceOut(players: seq<Player>, i: nat)
    requires i < |players| && DistinctIds(players)
    ensures |players[..i] + players[i + 1..]| == |players| - 1
    ensures DistinctIds(players[..i] + players[i + 1..])
    ensures forall q :: q in players[..i] + players[i + 1..] <==> q in players && q != players[i]
  {
    var r := players[..i] + players[i + 1..];
    assert forall k :: 0 <= k < |r| ==> r[k] == (if k < i then players[k] else players[k + 1]);
    forall q | q in players && q != players[i] ensures q in r {
      var k :| 0 <= k < |players| && players[k] == q;
      if k < i { assert r[k] == q; } else { assert r[k - 1] == q; }
    }
  }

  // ---------------------------------------------------------------------
  // Trade detection
  // ---------------------------------------------------------------------

  /** Kill i is a trade: the next kill comes within the trade window, its
      killer is on the same side (by membership of the attacking team) as
      kill i's victim, and its victim is kill i's killer. */
  predicate IsTrade(kills: seq<KillEvent>, i: nat, attackers: seq<Player>)
    requires i < |kills|
  {
    && i + 1 < |kills|
    && kills[i + 1].timestamp - kills[i].timestamp <= TradeWindow
    && HasId(attackers, kills[i].victim.id) == HasId(attackers, kills[i + 1].killer.id)
    && kills[i + 1].victim.id == kills[i].killer.id
  }

  /** The trade pass: sets wasTraded on every kill that is a trade and
      changes nothing else. */
  method MarkTrades(kills: seq<KillEvent>, attackers: seq<Player>) returns (marked: seq<KillEvent>)
    ensures |marked| == |kills|
    ensures forall i :: 0 <= i < |kills| ==>
      marked[i] == kills[i].(wasTraded := kills[i].wasTraded || IsTrade(kills, i, attackers))
  {
    marked := kills;
    var i := 0;
    while i + 1 < |kills|
      invariant 0 <= i <= |kills|
      invariant |kills| > 0 ==> i < |kills|
      invariant |marked| == |kills|
      invariant forall j :: 0 <= j < i ==>
        marked[j] == kills[j].(wasTraded := kills[j].wasTraded || IsTrade(kills, j, attackers))
      invariant forall j :: i <= j < |kills| ==> marked[j] == kills[j]
    {
      var kill := marked[i];
      var nextKill := marked[i + 1];
      if nextKill.timestamp - kill.timestamp <= TradeWindow {
        var victimWasAttacker := HasId(attackers, kill.victim.id);
        var nextKillerIsAttacker := HasId(attackers, nextKill.killer.id);
        if victimWasAttacker == nextKillerIsAttacker && nextKill.victim.id == kill.killer.id {
          marked := marked[i := kill.(wasTraded := true)];
        }
      }
      i := i + 1;
    }
  }

  // ---------------------------------------------------------------------
  // The round state machine
  // ---------------------------------------------------------------------

  /** The killer and the victim of a kill are on opposite sides. */
  predicate Opposed(k: KillEvent, attackers: seq<Player>, defenders: seq<Player>)
  {
    (k.killer in attackers && k.victim in defenders) || (k.killer in defenders && k.victim in attackers)
  }

  function Victims(kills: seq<KillEvent>): (r: seq<Player>)
    ensures |r| == |kills|
    ensures forall k :: 0 <= k < |kills| ==> r[k] == kills[k].victim
  {
    if kills == [] then [] else Victims(kills[..|kills| - 1]) + [kills[|kills| - 1].victim]
  }

  /** Two lists whose ids are distinct together share no player. */
  lemma DisjointTeams(attackers: seq<Player>, defenders: seq<Player>, p: Player)
    requires DistinctIds(attackers + defenders)
    requires p in attackers
    ensures p !in defenders
  {
    var all := attackers + defenders;
    var i :| 0 <= i < |attackers| && attackers[i] == p;
    forall j | 0 <= j < |defenders| ensures defenders[j].id != p.id {
      assert all[i] == p && all[|attackers| + j] == defenders[j];
    }
  }

  lemma DistinctParts(attackers: seq<Player>, defenders: seq<Player>)
    requires DistinctIds(attackers + defenders)
    ensures DistinctIds(attackers) && DistinctIds(defenders)
  {
    var all := attackers + defenders;
    forall i, j | 0 <= i < j < |defenders| ensures defenders[i].id != defenders[j].id {
      assert all[|attackers| + i] == defenders[i] && all[|attackers| + j] == defenders[j];
    }
    forall i, j | 0 <= i < j < |attackers| ensures attackers[i].id != attackers[j].id {
      assert all[i] == attackers[i] && all[j] == attackers[j];
    }
  }

  /** Every alive player belongs to the team. */
  ghost predicate Within(alive: seq<Player>, team: seq<Player>)
  {
    forall p :: p in alive ==> p in team
  }

  /** Every member of the team is alive or among the victims. */
  ghost predicate Accounted(team: seq<Player>, alive: seq<Player>, kills: seq<KillEvent>)
  {
    forall p :: p in team ==> p in alive || p in Victims(kills)
  }

  /** Every kill is between the two sides. */
  ghost predicate AllOpposed(kills: seq<KillEvent>, attackers: seq<Player>, defenders: seq<Player>)
  {
    forall k :: 0 <= k < |kills| ==> Opposed(kills[k], attackers, defenders)
  }

  /** No victim is alive. */
  ghost predicate VictimsDead(kills: seq<KillEvent>, alive: seq<Player>)
  {
    forall k :: 0 <= k < |kills| ==> kills[k].victim !in alive
  }

  /** No player dies twice. */
  ghost predicate DistinctVictims(kills: seq<KillEvent>)
  {
    forall j, k :: 0 <= j < k < |kills| ==> kills[j].victim != kills[k].victim
  }

  /** The state of the round loop: which players are alive, which kills
      happened, all accounted for. */
  ghost predicate RoundBookkeeping(
    attackers: seq<Player>, defenders: seq<Player>,
    aliveAttackers: seq<Player>, aliveDefenders: seq<Player>, kills: seq<KillEvent>)
  {
    && |aliveAttackers| + |aliveDefenders| + |kills| == |attackers| + |defenders|
    && DistinctIds(aliveAttackers) && DistinctIds(aliveDefenders)
    && Within(aliveAttackers, attackers) && Within(aliveDefenders, defenders)
    && Accounted(attackers, aliveAttackers, kills) && Accounted(defenders, aliveDefenders, kills)
    && AllOpposed(kills, attackers, defenders)
    && VictimsDead(kills, aliveAttackers) && VictimsDead(kills, aliveDefenders)
    && DistinctVictims(kills)
  }

  /** One kill keeps the bookkeeping: the victim leaves its own side's alive list. */
  lemma KillStep(
    attackers: seq<Player>, defenders: seq<Player>,
    aliveAttackers: seq<Player>, aliveDefenders: seq<Player>, kills: seq<KillEvent>,
    kill: KillEvent, victimSide: Side)
    requires DistinctIds(attackers + defenders)
    requires RoundBookkeeping(attackers, defenders, aliveAttackers, aliveDefenders, kills)
    requires victimSide == Defense ==> kill.killer in aliveAttackers && kill.victim in aliveDefenders
    requires victimSide == Attack ==> kill.killer in aliveDefenders && kill.victim in aliveAttackers
    ensures victimSide == Attack ==>
      var i := FindIndexById(aliveAttackers, kill.victim.id);
      0 <= i && aliveAttackers[i] == kill.victim &&
      RoundBookkeeping(attackers, defenders, aliveAttackers[..i] + aliveAttackers[i + 1..], aliveDefenders, kills + [kill])
    ensures victimSide == Defense ==>
      var i := FindIndexById(aliveDefenders, kill.victim.id);
      0 <= i && aliveDefenders[i] == kill.victim &&
      RoundBookkeeping(attackers, defenders, aliveAttackers, aliveDefenders[..i] + aliveDefenders[i + 1..], kills + [kill])
  {
    if victimSide == Attack {
      AttackerKilled(attackers, defenders, aliveAttackers, aliveDefenders, kills, kill);
    } else {
      DefenderKilled(attackers, defenders, aliveAttackers, aliveDefenders, kills, kill);
    }
  }

  /** The victims so far and the new one, in order, as `Victims` lists them. */
  lemma VictimsAppend(kills: seq<KillEvent>, kill: KillEvent)
    ensures Victims(kills + [kill]) == Victims(kills) + [kill.victim]
    ensures forall k :: 0 <= k < |kills| ==> (kills + [kill])[k] == kills[k]
  {
    assert (kills + [kill])[..|kills|] == kills;
  }

  /** `KillStep` for a victim on attack. */
  lemma AttackerKilled(
    attackers: seq<Player>, defenders: seq<Player>,
    aliveAttackers: seq<Player>, aliveDefenders: seq<Player>, kills: seq<KillEvent>, kill: KillEvent)
    requires DistinctIds(attackers + defenders)
    requires RoundBookkeeping(attackers, defenders, aliveAttackers, aliveDefenders, kills)
    requires kill.killer in aliveDefenders && kill.victim in aliveAttackers
    ensures var i := FindIndexById(aliveAttackers, kill.victim.id);
      0 <= i && aliveAttackers[i] == kill.victim &&
      RoundBookkeeping(attackers, defenders, aliveAttackers[..i] + aliveAttackers[i + 1..], aliveDefenders, kills + [kill])
  {
    FindMember(aliveAttackers, kill.victim);
    var i := FindIndexById(aliveAttackers, kill.victim.id);
    SpliceOut(aliveAttackers, i);
    DisjointTeams(attackers, defenders, kill.victim);
    VictimLeaves(attackers, defenders, aliveAttackers, aliveDefenders, kills, kill,
                 aliveAttackers[..i] + aliveAttackers[i + 1..], aliveDefenders);
  }

  /** `KillStep` for a victim on defense. */
  lemma DefenderKilled(
    attackers: seq<Player>, defenders: seq<Player>,
    aliveAttackers: seq<Player>, aliveDefenders: seq<Player>, kills: seq<KillEvent>, kill: KillEvent)
    requires DistinctIds(attackers + defenders)
    requires RoundBookkeeping(attackers, defenders, aliveAttackers, aliveDefenders, kills)
    requires kill.killer in aliveAttackers && kill.victim in aliveDefenders
    ensures var i := FindIndexById(aliveDefenders, kill.victim.id);
      0 <= i && aliveDefenders[i] == kill.victim &&
      RoundBookkeeping(attackers, defenders, aliveAttackers, aliveDefenders[..i] + aliveDefenders[i + 1..], kills + [kill])
  {
    FindMember(aliveDefenders, kill.victim);
    var i := FindIndexById(aliveDefenders, kill.victim.id);
    SpliceOut(aliveDefenders, i);
    assert kill.victim !in attackers by {
      if kill.victim in attackers { DisjointTeams(attackers, defenders, kill.victim); }
    }
    VictimLeaves(attackers, defenders, aliveAttackers, aliveDefenders, kills, kill,
                 aliveAttackers, aliveDefenders[..i] + aliveDefenders[i + 1..]);
  }

  /** The bookkeeping after a kill between the two sides whose victim,
      and only the victim, leaves the alive lists. */
  lemma VictimLeaves(
    attackers: seq<Player>, defenders: seq<Player>,
    aliveAttackers: seq<Player>, aliveDefenders: seq<Player>, kills: seq<KillEvent>, kill: KillEvent,
    attackersAfter: seq<Player>, defendersAfter: seq<Player>)
    requires RoundBookkeeping(attackers, defenders, aliveAttackers, aliveDefenders, kills)
    requires Opposed(kill, attackers, defenders)
    requires kill.victim in aliveAttackers || kill.victim in aliveDefenders
    requires |attackersAfter| + |defendersAfter| + 1 == |aliveAttackers| + |aliveDefenders|
    requires DistinctIds(attackersAfter) && DistinctIds(defendersAfter)
    requires forall q :: q in attackersAfter <==> q in aliveAttackers && q != kill.victim
    requires forall q :: q in defendersAfter <==> q in aliveDefenders && q != kill.victim
    ensures RoundBookkeeping(attackers, defenders, attackersAfter, defendersAfter, kills + [kill])
  {
    StillCovered(attackers, aliveAttackers, attackersAfter, kills, kill);
    StillCovered(defenders, aliveDefenders, defendersAfter, kills, kill);
    StillOpposed(kills, kill, attackers, defenders);
    VictimsGone(aliveAttackers, attackersAfter, kills, kill);
    VictimsGone(aliveDefenders, defendersAfter, kills, kill);
    VictimsDistinct(aliveAttackers, aliveDefenders, kills, kill);
  }

  /** A team member alive or already killed stays so when the kill's victim,
      and only it, leaves the alive list. */
  lemma StillCovered(team: seq<Player>, alive: seq<Player>, after: seq<Player>, kills: seq<KillEvent>, kill: KillEvent)
    requires Accounted(team, alive, kills)
    requires forall q :: q in after <==> q in alive && q != kill.victim
    ensures Accounted(team, after, kills + [kill])
  {
    VictimsAppend(kills, kill);
  }

  lemma StillOpposed(kills: seq<KillEvent>, kill: KillEvent, attackers: seq<Player>, defenders: seq<Player>)
    requires AllOpposed(kills, attackers, defenders) && Opposed(kill, attackers, defenders)
    ensures AllOpposed(kills + [kill], attackers, defenders)
  {
    VictimsAppend(kills, kill);
  }

  /** No victim, old or new, is in the alive list after the kill. */
  lemma VictimsGone(alive: seq<Player>, after: seq<Player>, kills: seq<KillEvent>, kill: KillEvent)
    requires VictimsDead(kills, alive)
    requires forall q :: q in after <==> q in alive && q != kill.victim
    ensures VictimsDead(kills + [kill], after)
  {
    forall k | 0 <= k < |kills + [kill]| ensures (kills + [kill])[k].victim !in after {
      if k < |kills| {
        assert (kills + [kill])[k] == kills[k];
      }
    }
  }

  /** A victim who was alive was not killed before. */
  lemma VictimsDistinct(aliveAttackers: seq<Player>, aliveDefenders: seq<Player>, kills: seq<KillEvent>, kill: KillEvent)
    requires VictimsDead(kills, aliveAttackers) && VictimsDead(kills, aliveDefenders) && DistinctVictims(kills)
    requires kill.victim in aliveAttackers || kill.victim in aliveDefenders
    ensures DistinctVictims(kills + [kill])
  {
    VictimsAppend(kills, kill);
  }

  /** Seconds until the next engagement: between half and all of the
      round's average kill time. */
  method KillDelay(draw: real, avgKillTime: real) returns (delay: real)
    ensures 0.0 <= draw < 1.0 && avgKillTime > 0.0 ==> avgKillTime * 0.5 <= delay < avgKillTime
  {
    delay := draw * avgKillTime * 0.5 + avgKillTime * 0.5;
    if 0.0 <= draw < 1.0 && avgKillTime > 0.0 {
      var half := avgKillTime * 0.5;
      DrawScalesBelow(draw, half);
      assert draw * avgKillTime * 0.5 == draw * half;
      assert delay == draw * half + half;
      assert half + half == avgKillTime;
    }
  }

  /** A draw in [0, 1) scales a positive amount to something below it. */
  lemma DrawScalesBelow(draw: real, x: real)
    requires 0.0 <= draw < 1.0 && x > 0.0
    ensures 0.0 <= draw * x < x
  {
  }

  /** One engagement of the round loop: a kill is simulated, recorded at
      the current time, and its victim is spliced out of the alive list of
      the side it belonged to. */
  method ResolveKill(
    attackers: seq<Player>, defenders: seq<Player>,
    aliveAttackers: seq<Player>, aliveDefenders: seq<Player>, kills: seq<KillEvent>,
    attackStrength: real, defenseStrength: real, currentTime: real,
    rand: DrawStream, cursor: nat)
    returns (kills': seq<KillEvent>, aliveAttackers': seq<Player>, aliveDefenders': seq<Player>, next: nat)
    requires DistinctIds(attackers + defenders)
    requires RoundBookkeeping(attackers, defenders, aliveAttackers, aliveDefenders, kills)
    requires aliveAttackers != [] && aliveDefenders != []
    ensures RoundBookkeeping(attackers, defenders, aliveAttackers', aliveDefenders', kills')
    ensures |aliveAttackers'| + |aliveDefenders'| == |aliveAttackers| + |aliveDefenders| - 1
    ensures |kills'| == |kills| + 1 && kills'[..|kills|] == kills
    ensures !kills'[|kills|].wasTraded && kills'[|kills|].timestamp == currentTime
    ensures (forall k :: 0 <= k < |kills| ==> !kills[k].wasTraded) ==> forall k :: 0 <= k < |kills'| ==> !kills'[k].wasTraded
    ensures next == cursor + 4
  {
    var killer, victim, victimSide;
    killer, victim, victimSide, next :=
      SimulateKill(aliveAttackers, aliveDefenders, attackStrength, defenseStrength, rand, cursor);
    var killEvent := KillEvent(killer, victim, currentTime, false);
    KillStep(attackers, defenders, aliveAttackers, aliveDefenders, kills, killEvent, victimSide);
    kills' := kills + [killEvent];
    assert kills'[..|kills|] == kills;
    aliveAttackers', aliveDefenders' := aliveAttackers, aliveDefenders;
    if victimSide == Attack {
      var victimIndex := FindIndexById(aliveAttackers, victim.id);
      if victimIndex != -1 {
        aliveAttackers' := aliveAttackers[..victimIndex] + aliveAttackers[victimIndex + 1..];
      }
    } else {
      var victimIndex := FindIndexById(aliveDefenders, victim.id);
      if victimIndex != -1 {
        aliveDefenders' := aliveDefenders[..victimIndex] + aliveDefenders[victimIndex + 1..];
      }
    }
  }

  /** What a finished round's kill list says about the players: it has one
      kill per player who died, at most |attackers| + |defenders| - 1 of
      them, every killer on the side opposite its victim, nobody dying
      twice, and a player of either team is alive exactly when no kill has
      them as its victim. */
  ghost predicate KillsAccounted(
    attackers: seq<Player>, defenders: seq<Player>,
    aliveAttackers: seq<Player>, aliveDefenders: seq<Player>, kills: seq<KillEvent>)
  {
    && |kills| + |aliveAttackers| + |aliveDefenders| == |attackers| + |defenders|
    && |kills| <= |attackers| + |defenders| - 1
    && (forall k :: 0 <= k < |kills| ==> Opposed(kills[k], attackers, defenders))
    && (forall j, k :: 0 <= j < k < |kills| ==> kills[j].victim != kills[k].victim)
    && (forall p :: p in attackers ==> (p in aliveAttackers <==> p !in Victims(kills)))
    && (forall p :: p in defenders ==> (p in aliveDefenders <==> p !in Victims(kills)))
    && (forall p :: p in aliveAttackers ==> p in attackers)
    && (forall p :: p in aliveDefenders ==> p in defenders)
  }

  /** The rules that decide a round, in terms of who is left alive and the
      clock when the round stopped. The round stops on the clock (no plant
      by 90 s: time expired; 45 s after a plant: detonation) or on a wipe:
      attackers wiped after a plant is a defuse if more than 7 s of bomb
      timer remain and a detonation otherwise, attackers wiped with no plant
      is an elimination, and defenders wiped is a detonation after a plant
      and an elimination without one. */
  predicate RoundOutcome(r: RoundResult, aliveAttackers: seq<Player>, aliveDefenders: seq<Player>, endTime: real)
  {
    && (r.bombPlanted <==> r.plantTime.Some?)
    // how the round stopped
    && (aliveAttackers != [] || aliveDefenders != [])
    && (aliveAttackers != [] && aliveDefenders != [] ==>
          (!r.bombPlanted && endTime >= PlantTime) || (r.bombPlanted && endTime - r.plantTime.value >= DefuseTime))
    && (aliveAttackers == [] || aliveDefenders == [] ==>
          (!r.bombPlanted && endTime < PlantTime) || (r.bombPlanted && endTime - r.plantTime.value < DefuseTime))
    // the win condition
    && (r.winCondition == TimeExpired <==>
          aliveAttackers != [] && aliveDefenders != [] && !r.bombPlanted)
    && (r.winCondition == BombDefused <==>
          aliveAttackers == [] && r.bombPlanted && DefuseTime - (endTime - r.plantTime.value) > DefuseNeeded)
    && (r.winCondition == Elimination <==>
          (aliveAttackers == [] || aliveDefenders == []) && !r.bombPlanted)
    && (r.winCondition == BombDetonated <==>
          r.bombPlanted &&
          (aliveDefenders == [] || (aliveAttackers != [] && endTime - r.plantTime.value >= DefuseTime)
           || (aliveAttackers == [] && DefuseTime - (endTime - r.plantTime.value) <= DefuseNeeded)))
    // the winner and who is reported alive
    && (r.winner == Defense <==>
          r.winCondition in {TimeExpired, BombDefused} || (r.winCondition == Elimination && aliveAttackers == []))
    && r.survivors == (if r.winner == Defense then aliveDefenders
                       else if aliveAttackers == [] then [] else aliveAttackers)
  }

  /** The loop's bookkeeping, once one side is down to nobody or the clock
      stopped the round, accounts for every kill. */
  lemma {:induction false} BookkeepingAccounts(
    attackers: seq<Player>, defenders: seq<Player>,
    aliveAttackers: seq<Player>, aliveDefenders: seq<Player>, kills: seq<KillEvent>)
    requires RoundBookkeeping(attackers, defenders, aliveAttackers, aliveDefenders, kills)
    requires aliveAttackers != [] || aliveDefenders != []
    ensures KillsAccounted(attackers, defenders, aliveAttackers, aliveDefenders, kills)
  {
    forall p | p in attackers && p in aliveAttackers ensures p !in Victims(kills) {
      forall k | 0 <= k < |kills| ensures Victims(kills)[k] != p {
        assert kills[k].victim !in aliveAttackers;
      }
    }
    forall p | p in defenders && p in aliveDefenders ensures p !in Victims(kills) {
      forall k | 0 <= k < |kills| ensures Victims(kills)[k] != p {
        assert kills[k].victim !in aliveDefenders;
      }
    }
  }

  /** The trade pass only sets flags, so the accounting of who killed whom
      is unchanged by it. */
  lemma {:induction false} TradePassKeepsAccount(
    attackers: seq<Player>, defenders: seq<Player>,
    aliveAttackers: seq<Player>, aliveDefenders: seq<Player>,
    kills: seq<KillEvent>, marked: seq<KillEvent>)
    requires KillsAccounted(attackers, defenders, aliveAttackers, aliveDefenders, kills)
    requires |marked| == |kills|
    requires forall i :: 0 <= i < |kills| ==> marked[i] == kills[i].(wasTraded := marked[i].wasTraded)
    ensures KillsAccounted(attackers, defenders, aliveAttackers, aliveDefenders, marked)
  {
    assert Victims(marked) == Victims(kills);
    assert forall k :: 0 <= k < |kills| ==> marked[k].killer == kills[k].killer && marked[k].victim == kills[k].victim;
  }

  /** Exactly the trades carry the wasTraded flag when the trade pass ran,
      and no kill carries it otherwise. */
  predicate TradesMarked(kills: seq<KillEvent>, attackers: seq<Player>, passRan: bool)
  {
    forall k :: 0 <= k < |kills| ==> (kills[k].wasTraded <==> passRan && IsTrade(kills, k, attackers))
  }

  lemma {:induction false} TradePassMarks(kills: seq<KillEvent>, marked: seq<KillEvent>, attackers: seq<Player>)
    requires forall k :: 0 <= k < |kills| ==> !kills[k].wasTraded
    requires |marked| == |kills|
    requires forall i :: 0 <= i < |kills| ==>
      marked[i] == kills[i].(wasTraded := kills[i].wasTraded || IsTrade(kills, i, attackers))
    ensures TradesMarked(marked, attackers, true)
    ensures forall i :: 0 <= i < |kills| ==> marked[i] == kills[i].(wasTraded := marked[i].wasTraded)
  {
    forall i | 0 <= i < |kills| ensures IsTrade(marked, i, attackers) == IsTrade(kills, i, attackers) {
      if i + 1 < |kills| {
        assert marked[i].victim == kills[i].victim && marked[i + 1].killer == kills[i + 1].killer;
      }
    }
  }

  /** Simulates one round. Besides the result it returns the two alive lists
      and the clock at the moment the round ended. Trades are marked only in
      rounds that end in a wipe: the clock endings return before the trade
      pass. */
  method SimulateRound(attackers: seq<Player>, defenders: seq<Player>, m: MapName, rand: DrawStream, cursor: nat)
    returns (r: RoundResult, aliveAttackers: seq<Player>, aliveDefenders: seq<Player>, endTime: real, next: nat)
    requires attackers != [] && defenders != []
    requires DistinctIds(attackers + defenders)
    ensures KillsAccounted(attackers, defenders, aliveAttackers, aliveDefenders, r.kills)
    ensures RoundOutcome(r, aliveAttackers, aliveDefenders, endTime)
    ensures TradesMarked(r.kills, attackers, aliveAttackers == [] || aliveDefenders == [])
  {
    var kills: seq<KillEvent> := [];
    aliveAttackers := attackers;
    aliveDefenders := defenders;
    var currentTime := 0.0;
    var bombPlanted := false;
    var plantTime := 0.0;
    next := cursor;

    var attackStrength := CalculateTeamStrength(attackers, Attack, m);
    var defenseStrength := CalculateTeamStrength(defenders, Defense, m);

    var avgKillTime := 15.0 + rand(next) * 10.0;
    next := next + 1;

    BookkeepingAtStart(attackers, defenders);

    while aliveAttackers != [] && aliveDefenders != []
      invariant RoundBookkeeping(attackers, defenders, aliveAttackers, aliveDefenders, kills)
      invariant aliveAttackers != [] || aliveDefenders != []
      invariant forall k :: 0 <= k < |kills| ==> !kills[k].wasTraded
      invariant bombPlanted ==> currentTime - plantTime < DefuseTime
      invariant !bombPlanted ==> currentTime < PlantTime
      decreases |aliveAttackers| + |aliveDefenders|
    {
      var delay := KillDelay(rand(next), avgKillTime);
      currentTime := currentTime + delay;
      next := next + 1;

      if !bombPlanted && currentTime < PlantTime && |aliveAttackers| > |aliveDefenders| {
        if rand(next) < 0.7 {
          bombPlanted := true;
          plantTime := currentTime;
        }
        next := next + 1;
      }

      if !bombPlanted && currentTime >= PlantTime {
        r := RoundResult(Defense, TimeExpired, kills, aliveDefenders, false, None);
        endTime := currentTime;
        StoppedEarly(attackers, defenders, aliveAttackers, aliveDefenders, r, endTime);
        return;
      }

      if bombPlanted && currentTime - plantTime >= DefuseTime {
        r := RoundResult(Attack, BombDetonated, kills, aliveAttackers, true, Some(plantTime));
        endTime := currentTime;
        StoppedEarly(attackers, defenders, aliveAttackers, aliveDefenders, r, endTime);
        return;
      }
      assert bombPlanted ==> currentTime - plantTime < DefuseTime;
      assert !bombPlanted ==> currentTime < PlantTime;

      kills, aliveAttackers, aliveDefenders, next := ResolveKill(
        attackers, defenders, aliveAttackers, aliveDefenders, kills,
        attackStrength, defenseStrength, currentTime, rand, next);
    }

    r, endTime := FinishRound(attackers, defenders, aliveAttackers, aliveDefenders, kills,
                              bombPlanted, plantTime, currentTime);
  }

  /** A round stopped by the clock or the bomb with both sides standing:
      no trade pass has run. */
  lemma StoppedEarly(attackers: seq<Player>, defenders: seq<Player>,
                     aliveAttackers: seq<Player>, aliveDefenders: seq<Player>, r: RoundResult, endTime: real)
    requires RoundBookkeeping(attackers, defenders, aliveAttackers, aliveDefenders, r.kills)
    requires aliveAttackers != [] && aliveDefenders != []
    requires forall k :: 0 <= k < |r.kills| ==> !r.kills[k].wasTraded
    requires || (r == RoundResult(Defense, TimeExpired, r.kills, aliveDefenders, false, None) && endTime >= PlantTime)
             || (r == RoundResult(Attack, BombDetonated, r.kills, aliveAttackers, true, r.plantTime)
                 && r.plantTime.Some? && endTime - r.plantTime.value >= DefuseTime)
    ensures KillsAccounted(attackers, defenders, aliveAttackers, aliveDefenders, r.kills)
    ensures RoundOutcome(r, aliveAttackers, aliveDefenders, endTime)
    ensures TradesMarked(r.kills, attackers, false)
  {
    BookkeepingAccounts(attackers, defenders, aliveAttackers, aliveDefenders, r.kills);
  }

  /** Before the first kill everyone is alive. */
  lemma BookkeepingAtStart(attackers: seq<Player>, defenders: seq<Player>)
    requires DistinctIds(attackers + defenders)
    ensures RoundBookkeeping(attackers, defenders, attackers, defenders, [])
  {
    DistinctParts(attackers, defenders);
    forall p | p in attackers ensures p in attackers || p in Victims([]) { }
  }

  /** After the last kill: the trade pass, then who won and how. */
  method FinishRound(attackers: seq<Player>, defenders: seq<Player>,
                     aliveAttackers: seq<Player>, aliveDefenders: seq<Player>, kills: seq<KillEvent>,
                     bombPlanted: bool, plantTime: real, currentTime: real)
    returns (r: RoundResult, endTime: real)
    requires DistinctIds(attackers + defenders)
    requires RoundBookkeeping(attackers, defenders, aliveAttackers, aliveDefenders, kills)
    requires aliveAttackers != [] || aliveDefenders != []
    requires aliveAttackers == [] || aliveDefenders == []
    requires forall k :: 0 <= k < |kills| ==> !kills[k].wasTraded
    requires bombPlanted ==> currentTime - plantTime < DefuseTime
    requires !bombPlanted ==> currentTime < PlantTime
    ensures KillsAccounted(attackers, defenders, aliveAttackers, aliveDefenders, r.kills)
    ensures RoundOutcome(r, aliveAttackers, aliveDefenders, endTime)
    ensures TradesMarked(r.kills, attackers, true)
  {
    BookkeepingAccounts(attackers, defenders, aliveAttackers, aliveDefenders, kills);
    var traded := MarkTrades(kills, attackers);
    TradePassMarks(kills, traded, attackers);
    TradePassKeepsAccount(attackers, defenders, aliveAttackers, aliveDefenders, kills, traded);
    endTime := currentTime;

    if aliveAttackers == [] {
      if bombPlanted {
        var timeToDefuse := DefuseTime - (currentTime - plantTime);
        if timeToDefuse > DefuseNeeded {
          r := RoundResult(Defense, BombDefused, traded, aliveDefenders, true, Some(plantTime));
        } else {
          r := RoundResult(Attack, BombDetonated, traded, [], true, Some(plantTime));
        }
      } else {
        r := RoundResult(Defense, Elimination, traded, aliveDefenders, false, None);
      }
    } else {
      r := RoundResult(Attack, if bombPlanted then BombDetonated else Elimination,
                       traded, aliveAttackers, bombPlanted, if bombPlanted then Some(plantTime) else None);
    }
  }

  /** Under the round's bookkeeping, a traded kill is avenged: the next
      killer is a teammate of the traded victim and the next victim is the
      player who made the traded kill. */
  lemma TradeIsRevenge(kills: seq<KillEvent>, i: nat, attackers: seq<Player>, defenders: seq<Player>)
    requires DistinctIds(attackers + defenders)
    requires i < |kills| && IsTrade(kills, i, attackers)
    requires forall k :: 0 <= k < |kills| ==> Opposed(kills[k], attackers, defenders)
    ensures (kills[i].victim in attackers && kills[i + 1].killer in attackers)
         || (kills[i].victim in defenders && kills[i + 1].killer in defenders)
    ensures kills[i + 1].victim == kills[i].killer
  {
    var all := attackers + defenders;
    var a, b := kills[i], kills[i + 1];
    assert Opposed(a, attackers, defenders) && Opposed(b, attackers, defenders);
    forall p | p in defenders ensures !HasId(attackers, p.id) {
      var y :| 0 <= y < |defenders| && defenders[y] == p;
      forall x | 0 <= x < |attackers| ensures attackers[x].id != p.id {
        assert all[x] == attackers[x] && all[|attackers| + y] == p;
      }
    }
    forall p | p in attackers ensures HasId(attackers, p.id) {
      var x :| 0 <= x < |attackers| && attackers[x] == p;
    }
    // the same id names the same player across both teams
    forall p, q | p in all && q in all && p.id == q.id ensures p == q {
      var x :| 0 <= x < |all| && all[x] == p;
      var y :| 0 <= y < |all| && all[y] == q;
    }
    assert b.victim in all && a.killer in all;
  }
}
