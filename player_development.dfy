/** Player development (src/utils/playerDevelopment.ts): potential, the
    age curve, yearly progression and decline, weekly training by focus,
    agent-pool training, and morale and form updates. Random draws come
    from an injected stream; the orders produced by random
    shuffles are supplied as permutations. */
module PlayerDevelopment {
  import opened Types
  import opened ContractUtils

  const PeakAgeStart := 22
  const PeakAgeEnd := 26
  const DeclineAgeStart := 28

  // ---------------------------------------------------------------------
  // Potential and development rate
  // ---------------------------------------------------------------------

  /** Potential: rating plus a random headroom that shrinks with age,
      capped at 100; veterans keep their rating. */
  function CalculatePotential(p: Player, draw: real): (potential: real)
    requires 0.0 <= draw < 1.0
    ensures p.age <= 26 ==> potential <= 100.0
    ensures p.age <= 26 ==> potential >= MinR(100.0, OverallRating(p) as real)
    ensures p.age > 26 ==> potential == OverallRating(p) as real
  {
    var currentOverall := OverallRating(p) as real;
    if p.age <= 20 then MinR(100.0, currentOverall + draw * 20.0 + 10.0)
    else if p.age <= 23 then MinR(100.0, currentOverall + draw * 15.0 + 5.0)
    else if p.age <= 26 then MinR(100.0, currentOverall + draw * 8.0)
    else currentOverall
  }

  function DevelopmentRate(age: int): real
  {
    if age <= 20 then 1.5
    else if age <= 23 then 1.2
    else if age <= 26 then 0.8
    else if age <= 28 then 0.5
    else 0.2
  }

  /** The development rate never grows with age and takes five values. */
  lemma DevelopmentRateNonIncreasing(a1: int, a2: int)
    requires a1 <= a2
    ensures DevelopmentRate(a2) <= DevelopmentRate(a1)
    ensures DevelopmentRate(a1) in {1.5, 1.2, 0.8, 0.5, 0.2}
  {
  }

  // ---------------------------------------------------------------------
  // Stat growth and decline
  // ---------------------------------------------------------------------

  /** A stat below the cap may grow, up to the cap; one at or above the cap
      is left alone. */
  predicate RaisedToward(before: real, after: real, cap: real)
  {
    && (before < cap ==> before <= after <= cap)
    && (before >= cap ==> after == before)
  }

  lemma AllStatKeysDistinct()
    ensures forall i, j :: 0 <= i < j < |AllStatKeys| ==> AllStatKeys[i] != AllStatKeys[j]
  {
  }

  lemma ScaledDrawNonNegative(d: real, a: real, b: real)
    requires 0.0 <= d && 0.0 <= a && 0.0 <= b
    ensures 0.0 <= d * a * b
  {
  }

  /** A stat below the cap after growing by floor(draw * 3 * growthRate)
      points, capped there. */
  function GrownValue(current: real, cap: real, growthRate: real, draw: real): (v: real)
    requires 0.0 <= draw < 1.0 && growthRate >= 0.0 && current < cap
    ensures RaisedToward(current, v, cap) && v <= current + 3.0 * growthRate
  {
    ScaledDrawNonNegative(draw, 3.0, growthRate);
    var growth := (draw * 3.0 * growthRate).Floor;
    assert growth as real <= 3.0 * growthRate by {
      assert draw * 3.0 * growthRate <= 3.0 * growthRate;
    }
    MinR(cap, current + growth as real)
  }

  /** Every stat below min(100, potential) grows by a random whole number of
      points, at most three times the growth rate, capped there. */
  method ImproveStats(stats: Stats, potential: real, growthRate: real, rand: DrawStream, cursor: nat)
    returns (improved: Stats, next: nat)
    requires ValidStream(rand) && growthRate >= 0.0
    ensures next >= cursor
    ensures forall k :: RaisedToward(stats.Get(k), improved.Get(k), MinR(100.0, potential))
    ensures forall k :: improved.Get(k) <= stats.Get(k) + 3.0 * growthRate
  {
    var maxValue := MinR(100.0, potential);
    improved, next := stats, cursor;
    AllStatKeysDistinct();
    for i := 0 to |AllStatKeys|
      invariant next >= cursor
      invariant forall k :: k in AllStatKeys[..i] ==>
        RaisedToward(stats.Get(k), improved.Get(k), maxValue) && improved.Get(k) <= stats.Get(k) + 3.0 * growthRate
      invariant forall k :: k !in AllStatKeys[..i] ==> improved.Get(k) == stats.Get(k)
    {
      var key := AllStatKeys[i];
      assert key !in AllStatKeys[..i];
      assert AllStatKeys[..i + 1] == AllStatKeys[..i] + [key];
      var currentValue := stats.Get(key);
      if currentValue < maxValue {
        improved := improved.Set(key, GrownValue(currentValue, maxValue, growthRate, rand(next)));
        next := next + 1;
      }
      assert forall k :: k in AllStatKeys[..i + 1] ==> k == key || k in AllStatKeys[..i];
    }
    forall k ensures k in AllStatKeys[..|AllStatKeys|] {
      AllStatKeysComplete(k);
    }
  }

  /** The stats that decline with age. */
  const PhysicalStats: seq<StatKey> := [Mechanics, Stamina, Entry]
  const MentalStats: seq<StatKey> := [Igl, Mental, Clutch]

  predicate Declines(k: StatKey) { k in PhysicalStats || k in MentalStats }

  /** One declining stat: the loss is a random whole number of points,
      below `scale`; the result never goes under 40, and a stat below 40 is
      lifted to 40. */
  predicate DeclinedTo(before: real, after: real, scale: real)
  {
    && after >= 40.0
    && (scale >= 0.0 && before <= 40.0 ==> after == 40.0)
    && (scale >= 0.0 ==> after <= MaxR(40.0, before))
    && (scale >= 0.0 ==> after >= before - scale)
  }

  /** A stat after losing floor(draw * scale) points, floored at 40. */
  function DeclinedValue(before: real, draw: real, scale: real): (after: real)
    requires 0.0 <= draw < 1.0
    ensures DeclinedTo(before, after, scale)
  {
    var decline := (draw * scale).Floor;
    DeclineAmount(draw, scale);
    MaxR(40.0, before - decline as real)
  }

  /** A loss of floor(draw * scale) points is between 0 and the scale. */
  lemma DeclineAmount(draw: real, scale: real)
    requires 0.0 <= draw < 1.0
    ensures scale >= 0.0 ==> 0 <= (draw * scale).Floor && (draw * scale).Floor as real <= scale
  {
    if scale >= 0.0 {
      assert scale - draw * scale == (1.0 - draw) * scale;
      assert 0.0 <= draw * scale <= scale;
    }
  }

  /** Declines `keys` in order, one draw each, by floor(draw * scale). */
  method DeclineKeys(stats: Stats, keys: seq<StatKey>, scale: real, rand: DrawStream, cursor: nat)
    returns (declined: Stats, next: nat)
    requires ValidStream(rand)
    requires forall i, j :: 0 <= i < j < |keys| ==> keys[i] != keys[j]
    ensures next == cursor + |keys|
    ensures forall k :: k !in keys ==> declined.Get(k) == stats.Get(k)
    ensures forall k :: k in keys ==> DeclinedTo(stats.Get(k), declined.Get(k), scale)
  {
    declined, next := stats, cursor;
    for i := 0 to |keys|
      invariant next == cursor + i
      invariant forall k :: k !in keys[..i] ==> declined.Get(k) == stats.Get(k)
      invariant forall k :: k in keys[..i] ==> DeclinedTo(stats.Get(k), declined.Get(k), scale)
    {
      var key := keys[i];
      assert key !in keys[..i];
      assert keys[..i + 1] == keys[..i] + [key];
      declined := declined.Set(key, DeclinedValue(stats.Get(key), rand(next), scale));
      next := next + 1;
    }
    assert keys[..|keys|] == keys;
  }

  /** Age decline: physical stats lose up to twice the decline rate, mental
      stats up to the decline rate, (age - 27) * 0.3; nothing else changes
      and nothing goes under 40. */
  method DeclineStats(stats: Stats, age: int, rand: DrawStream, cursor: nat)
    returns (declined: Stats, next: nat)
    requires ValidStream(rand)
    ensures next == cursor + 6
    ensures forall k :: !Declines(k) ==> declined.Get(k) == stats.Get(k)
    ensures forall k :: k in PhysicalStats ==> DeclinedTo(stats.Get(k), declined.Get(k), 2.0 * DeclineRate(age))
    ensures forall k :: k in MentalStats ==> DeclinedTo(stats.Get(k), declined.Get(k), DeclineRate(age))
  {
    var declineRate := DeclineRate(age);
    declined, next := DeclineKeys(stats, PhysicalStats, 2.0 * declineRate, rand, cursor);
    ghost var mid := declined;
    declined, next := DeclineKeys(declined, MentalStats, declineRate, rand, next);
    assert forall k :: k in PhysicalStats ==> k !in MentalStats;
  }

  function DeclineRate(age: int): real
  {
    (age - DeclineAgeStart + 1) as real * 0.3
  }

  /** One year older: under 22 every stat grows toward potential by at most
      three times the growth rate (1.5 with morale of 70 or more, else 1);
      from 22 to 27 they grow by at most 1.5 points, and only while the
      rating is under potential; from 28 physical stats lose up to twice the
      decline rate and mental stats up to the decline rate. Only age and
      stats change. */
  method ApplyAgeProgression(p: Player, rand: DrawStream, cursor: nat) returns (r: Player, next: nat)
    requires ValidStream(rand)
    ensures next >= cursor
    ensures r.age == p.age + 1
    ensures r.(age := p.age, stats := p.stats) == p
    ensures p.age < DeclineAgeStart ==>
      forall k :: RaisedToward(p.stats.Get(k), r.stats.Get(k), MinR(100.0, p.potential))
    ensures p.age >= DeclineAgeStart ==>
      (forall k :: !Declines(k) ==> r.stats.Get(k) == p.stats.Get(k))
      && (forall k :: Declines(k) ==> r.stats.Get(k) >= 40.0 && r.stats.Get(k) <= MaxR(40.0, p.stats.Get(k)))
    ensures p.age < PeakAgeStart ==>
      forall k :: r.stats.Get(k) <= p.stats.Get(k) + 3.0 * (if p.morale >= 70.0 then 1.5 else 1.0)
    ensures PeakAgeStart <= p.age < DeclineAgeStart ==>
      (OverallRating(p) as real >= p.potential ==> r.stats == p.stats && next == cursor)
      && forall k :: r.stats.Get(k) <= p.stats.Get(k) + 1.5
    ensures p.age >= DeclineAgeStart ==>
      (forall k :: k in PhysicalStats ==> DeclinedTo(p.stats.Get(k), r.stats.Get(k), 2.0 * DeclineRate(p.age)))
      && (forall k :: k in MentalStats ==> DeclinedTo(p.stats.Get(k), r.stats.Get(k), DeclineRate(p.age)))
  {
    var newAge := p.age + 1;
    var updatedStats := p.stats;
    next := cursor;
    if p.age < PeakAgeStart {
      var growthRate := if p.morale >= 70.0 then 1.5 else 1.0;
      updatedStats, next := ImproveStats(updatedStats, p.potential, growthRate, rand, cursor);
    } else if p.age >= PeakAgeStart && p.age < DeclineAgeStart {
      var currentOverall := OverallRating(p);
      if (currentOverall as real) < p.potential {
        updatedStats, next := ImproveStats(updatedStats, p.potential, 0.5, rand, cursor);
      }
    } else if p.age >= DeclineAgeStart {
      updatedStats, next := DeclineStats(updatedStats, p.age, rand, cursor);
    }
    r := p.(age := newAge, stats := updatedStats);
  }

  // ---------------------------------------------------------------------
  // Weekly training
  // ---------------------------------------------------------------------

  datatype TrainingFocus = Aim | Strategy | Teamwork | Mentality | Agents | Balanced

  /** The stats a focus trains. */
  function FocusStats(focus: TrainingFocus): seq<StatKey>
  {
    match focus
    case Aim => [Mechanics, Entry]
    case Strategy => [Igl, Support]
    case Teamwork => [Vibes, Support, Clutch]
    case Mentality => [Mental, Clutch, Stamina]
    case Agents => []
    case Balanced => AllStatKeys
  }

  /** A trained stat is unchanged, or was below potential and gained one
      point, capped at potential. */
  predicate TrainedStep(before: real, after: real, potential: real)
  {
    after == before || (before < potential && after == MinR(potential, before + 1.0))
  }

  /** Trains `keys` in order: each stat below potential draws once and gains
      a point when the draw is under `chance`. */
  method TrainStats(stats: Stats, keys: seq<StatKey>, chance: real, potential: real, rand: DrawStream, cursor: nat)
    returns (updated: Stats, next: nat)
    requires forall i, j :: 0 <= i < j < |keys| ==> keys[i] != keys[j]
    ensures next >= cursor
    ensures forall k :: k !in keys ==> updated.Get(k) == stats.Get(k)
    ensures forall k :: k in keys ==> TrainedStep(stats.Get(k), updated.Get(k), potential)
  {
    updated, next := stats, cursor;
    for i := 0 to |keys|
      invariant next >= cursor
      invariant forall k :: k !in keys[..i] ==> updated.Get(k) == stats.Get(k)
      invariant forall k :: k in keys[..i] ==> TrainedStep(stats.Get(k), updated.Get(k), potential)
    {
      var stat := keys[i];
      assert stat !in keys[..i];
      assert keys[..i + 1] == keys[..i] + [stat];
      if updated.Get(stat) < potential {
        if rand(next) < chance {
          updated := updated.Set(stat, MinR(potential, updated.Get(stat) + 1.0));
        }
        next := next + 1;
      }
    }
    assert keys[..|keys|] == keys;
  }

  /** A focused session: each focus stat below potential may gain a point. */
  method TrainSpecificStats(stats: Stats, focusStats: seq<StatKey>, efficiency: real, potential: real,
                            rand: DrawStream, cursor: nat)
    returns (updated: Stats, next: nat)
    requires forall i, j :: 0 <= i < j < |focusStats| ==> focusStats[i] != focusStats[j]
    ensures next >= cursor
    ensures forall k :: k !in focusStats ==> updated.Get(k) == stats.Get(k)
    ensures forall k :: k in focusStats ==> TrainedStep(stats.Get(k), updated.Get(k), potential)
  {
    updated, next := TrainStats(stats, focusStats, efficiency * 0.3, potential, rand, cursor);
  }

  /** A balanced session: two or three stats, the first of a random order of
      all nine, may each gain a point. */
  method TrainBalanced(stats: Stats, efficiency: real, potential: real, shuffledKeys: seq<StatKey>,
                       rand: DrawStream, cursor: nat)
    returns (updated: Stats, next: nat)
    requires ValidStream(rand)
    requires multiset(shuffledKeys) == multiset(AllStatKeys)
    ensures next >= cursor
    ensures forall k :: TrainedStep(stats.Get(k), updated.Get(k), potential)
    ensures forall k :: k !in shuffledKeys[..3] ==> updated.Get(k) == stats.Get(k)
  {
    var numStats := (rand(cursor) * 2.0).Floor + 2;
    assert 2 <= numStats <= 3 by {
      assert 0.0 <= rand(cursor) * 2.0 < 2.0;
    }
    DistinctPermutation(shuffledKeys);
    var selectedStats := shuffledKeys[..numStats];
    assert forall i, j :: 0 <= i < j < |selectedStats| ==> selectedStats[i] != selectedStats[j];
    updated, next := TrainStats(stats, selectedStats, efficiency * 0.2, potential, rand, cursor + 1);
    forall k | k in selectedStats ensures k in shuffledKeys[..3] {
      var i :| 0 <= i < numStats && selectedStats[i] == k;
      assert shuffledKeys[..3][i] == k;
    }
  }

  /** A permutation of the nine stat keys has no repeats. */
  lemma DistinctPermutation(keys: seq<StatKey>)
    requires multiset(keys) == multiset(AllStatKeys)
    ensures |keys| == 9
    ensures forall i, j :: 0 <= i < j < |keys| ==> keys[i] != keys[j]
  {
    assert |multiset(keys)| == |keys|;
    forall i, j | 0 <= i < j < |keys| ensures keys[i] != keys[j] {
      StatKeyOnce(keys[i]);
      OnceMeansDistinct(keys, i, j);
    }
  }

  /** Each stat key occurs once in the list of all nine. */
  lemma StatKeyOnce(k: StatKey)
    ensures multiset(AllStatKeys)[k] == 1
  {
  }

  /** An element that occurs once is not repeated further on. */
  lemma OnceMeansDistinct<T>(s: seq<T>, i: int, j: int)
    requires 0 <= i < j < |s| && multiset(s)[s[i]] <= 1
    ensures s[i] != s[j]
  {
    var a, b := s[..j], s[j..];
    assert s == a + b;
    assert a[i] == s[i] && b[0] == s[j];
    assert multiset(s)[s[i]] == multiset(a)[s[i]] + multiset(b)[s[i]];
    assert multiset(a)[s[i]] >= 1;
    assert multiset(b)[s[j]] >= 1;
  }

  /** An agent-pool entry is unchanged, or was below 95 and gained a point. */
  predicate AgentTrained(before: AgentEntry, after: AgentEntry)
  {
    after.agent == before.agent
    && (after.proficiency == before.proficiency
        || (before.proficiency < 95.0 && after.proficiency == MinR(95.0, before.proficiency + 1.0)))
  }

  /** Agent training: one or two agents, the first of a random order of the
      pool, may each gain a proficiency point up to 95. No agent is added. */
  method ImproveAgentPool(agentPool: seq<AgentEntry>, efficiency: real, shuffled: seq<nat>,
                          rand: DrawStream, cursor: nat)
    returns (updated: seq<AgentEntry>, next: nat)
    requires multiset(shuffled) == multiset(Indices(|agentPool|))
    ensures next >= cursor
    ensures |updated| == |agentPool|
    ensures forall i :: 0 <= i < |agentPool| ==> AgentTrained(agentPool[i], updated[i])
    ensures forall i :: 0 <= i < |agentPool| && updated[i] != agentPool[i] ==>
      i in shuffled[..if |shuffled| < 2 then |shuffled| else 2]
  {
    var numAgents := if rand(cursor) < 0.5 then 1 else 2;
    next := cursor + 1;
    var count := if |shuffled| < numAgents then |shuffled| else numAgents;
    var selectedAgents := shuffled[..count];
    IndicesPermutation(shuffled, |agentPool|);
    updated := agentPool;
    for s := 0 to count
      invariant next >= cursor
      invariant |updated| == |agentPool|
      invariant forall i :: 0 <= i < |agentPool| ==> AgentTrained(agentPool[i], updated[i])
      invariant forall i :: 0 <= i < |agentPool| && updated[i] != agentPool[i] ==> i in selectedAgents[..s]
    {
      var agent := selectedAgents[s];
      assert agent in shuffled;
      assert selectedAgents[..s + 1] == selectedAgents[..s] + [agent];
      assert agent !in selectedAgents[..s] by {
        forall t | 0 <= t < s ensures selectedAgents[t] != agent {
          assert shuffled[t] == selectedAgents[t] && shuffled[s] == agent;
        }
      }
      assert updated[agent] == agentPool[agent];
      updated, next := TrainAgent(updated, agent, efficiency, rand, next);
    }
    assert selectedAgents == shuffled[..if |shuffled| < 2 then |shuffled| else 2] || count < 2;
    forall i | 0 <= i < |agentPool| && updated[i] != agentPool[i]
      ensures i in shuffled[..if |shuffled| < 2 then |shuffled| else 2]
    {
      assert i in selectedAgents;
      var t :| 0 <= t < count && selectedAgents[t] == i;
      assert shuffled[t] == i;
    }
  }

  /** One selected agent below 95 draws once and gains a point when the
      draw is under the chance; no other entry changes. */
  method TrainAgent(pool: seq<AgentEntry>, agent: nat, efficiency: real, rand: DrawStream, cursor: nat)
    returns (updated: seq<AgentEntry>, next: nat)
    requires agent < |pool|
    ensures next >= cursor
    ensures |updated| == |pool|
    ensures AgentTrained(pool[agent], updated[agent])
    ensures forall i :: 0 <= i < |pool| && i != agent ==> updated[i] == pool[i]
  {
    updated, next := pool, cursor;
    var current := pool[agent].proficiency;
    if current < 95.0 {
      if rand(next) < efficiency * 0.4 {
        updated := pool[agent := pool[agent].(proficiency := MinR(95.0, current + 1.0))];
      }
      next := next + 1;
    }
  }

  /** The indices 0 .. n-1 in order. */
  function Indices(n: nat): (r: seq<nat>)
    ensures |r| == n
    ensures forall i :: 0 <= i < n ==> r[i] == i
  {
    if n == 0 then [] else Indices(n - 1) + [n - 1]
  }

  /** A permutation of the indices holds only indices, each once. */
  lemma IndicesPermutation(shuffled: seq<nat>, n: nat)
    requires multiset(shuffled) == multiset(Indices(n))
    ensures |shuffled| == n
    ensures forall i :: 0 <= i < |shuffled| ==> shuffled[i] < n
    ensures forall i, j :: 0 <= i < j < |shuffled| ==> shuffled[i] != shuffled[j]
  {
    assert |multiset(shuffled)| == |shuffled|;
    forall i | 0 <= i < |shuffled| ensures shuffled[i] < n {
      assert shuffled[i] in multiset(shuffled);
      assert shuffled[i] in Indices(n);
    }
    forall i, j | 0 <= i < j < |shuffled| ensures shuffled[i] != shuffled[j] {
      IndicesOnce(n, shuffled[i]);
      OnceMeansDistinct(shuffled, i, j);
    }
  }

  lemma {:induction false} IndicesOnce(n: nat, k: nat)
    ensures multiset(Indices(n))[k] <= 1
  {
    if n > 0 {
      var prev := Indices(n - 1);
      IndicesOnce(n - 1, k);
      assert multiset(Indices(n)) == multiset(prev) + multiset{n - 1};
      if k == n - 1 {
        assert forall i :: 0 <= i < |prev| ==> prev[i] != k;
        assert multiset(prev)[k] == 0;
      }
    }
  }

  /** Training efficiency: morale as a fraction times the development rate. */
  function TrainingEfficiency(p: Player): real
  {
    (p.morale / 100.0) * DevelopmentRate(p.age)
  }

  /** Every stat moved by a training step, and only the focus stats moved. */
  predicate StatsTrained(before: Stats, after: Stats, potential: real, focusStats: seq<StatKey>)
  {
    && (forall k :: TrainedStep(before.Get(k), after.Get(k), potential))
    && (forall k :: k !in focusStats ==> after.Get(k) == before.Get(k))
  }

  /** A weekly session. The agents focus only trains the agent pool; every
      other focus trains its stats and adds twice the efficiency to
      development, capped at 100. */
  method ApplyTraining(p: Player, focus: TrainingFocus, shuffledKeys: seq<StatKey>, shuffledAgents: seq<nat>,
                       rand: DrawStream, cursor: nat)
    returns (r: Player, next: nat)
    requires ValidStream(rand)
    requires multiset(shuffledKeys) == multiset(AllStatKeys)
    requires multiset(shuffledAgents) == multiset(Indices(|p.agentPool|))
    ensures next >= cursor
    ensures focus == Agents ==>
      && r.(agentPool := p.agentPool) == p
      && |r.agentPool| == |p.agentPool|
      && forall i :: 0 <= i < |p.agentPool| ==> AgentTrained(p.agentPool[i], r.agentPool[i])
    ensures focus != Agents ==>
      && r.(stats := p.stats, development := p.development) == p
      && r.development == MinR(100.0, p.development + TrainingEfficiency(p) * 2.0)
      && StatsTrained(p.stats, r.stats, p.potential, FocusStats(focus))
  {
    var trainingEfficiency := TrainingEfficiency(p);
    if focus == Agents {
      var pool;
      pool, next := ImproveAgentPool(p.agentPool, trainingEfficiency, shuffledAgents, rand, cursor);
      return p.(agentPool := pool), next;
    }
    var updatedStats;
    updatedStats, next := TrainFocusStats(p.stats, focus, trainingEfficiency, p.potential, shuffledKeys, rand, cursor);
    var newDevelopment := MinR(100.0, p.development + trainingEfficiency * 2.0);
    r := p.(stats := updatedStats, development := newDevelopment);
  }

  /** The stat cases of the focus switch. */
  method TrainFocusStats(stats: Stats, focus: TrainingFocus, trainingEfficiency: real, potential: real,
                         shuffledKeys: seq<StatKey>, rand: DrawStream, cursor: nat)
    returns (updatedStats: Stats, next: nat)
    requires focus != Agents
    requires ValidStream(rand)
    requires multiset(shuffledKeys) == multiset(AllStatKeys)
    ensures next >= cursor
    ensures StatsTrained(stats, updatedStats, potential, FocusStats(focus))
  {
    match focus {
      case Aim =>
        updatedStats, next := TrainSpecificStats(stats, [Mechanics, Entry], trainingEfficiency, potential, rand, cursor);
      case Strategy =>
        updatedStats, next := TrainSpecificStats(stats, [Igl, Support], trainingEfficiency, potential, rand, cursor);
      case Teamwork =>
        updatedStats, next := TrainSpecificStats(stats, [Vibes, Support, Clutch], trainingEfficiency, potential, rand, cursor);
      case Mentality =>
        updatedStats, next := TrainSpecificStats(stats, [Mental, Clutch, Stamina], trainingEfficiency, potential, rand, cursor);
      case Balanced =>
        updatedStats, next := TrainBalanced(stats, trainingEfficiency, potential, shuffledKeys, rand, cursor);
        forall k ensures k in FocusStats(focus) {
          AllStatKeysComplete(k);
        }
    }
  }

  // ---------------------------------------------------------------------
  // Morale and form
  // ---------------------------------------------------------------------

  datatype ContractSituation = Good | Expiring | Unhappy

  /** The optional factors of a morale update. */
  datatype MoraleFactors = MoraleFactors(
    wins: Option<int>,
    losses: Option<int>,
    playingTime: Option<bool>,
    contractSituation: Option<ContractSituation>,
    teamChemistry: Option<real>)

  /** Each factor's contribution to a morale update. */
  function RecordEffect(f: MoraleFactors): int
  {
    if f.wins.Some? && f.losses.Some? then
      var games := f.wins.value + f.losses.value;
      var winRate := f.wins.value as real / (if games != 0 then games else 1) as real;
      if winRate > 0.6 then 5 else if winRate < 0.4 then -5 else 0
    else 0
  }

  function PlayingTimeEffect(f: MoraleFactors): int
  {
    match f.playingTime
    case None => 0
    case Some(playing) => if playing then 3 else -4
  }

  function ContractEffect(f: MoraleFactors): int
  {
    match f.contractSituation
    case None => 0
    case Some(Unhappy) => -10
    case Some(Expiring) => -5
    case Some(Good) => 5
  }

  function ChemistryEffect(f: MoraleFactors): int
  {
    match f.teamChemistry
    case None => 0
    case Some(c) => if c > 80.0 then 3 else if c < 50.0 then -3 else 0
  }

  /** Adds up the factors' effects and clamps the new morale to [0, 100]. */
  method UpdateMorale(p: Player, factors: MoraleFactors) returns (r: Player)
    ensures r == p.(morale := r.morale)
    ensures r.morale == Clamp(p.morale + (RecordEffect(factors) + PlayingTimeEffect(factors)
      + ContractEffect(factors) + ChemistryEffect(factors)) as real, 0.0, 100.0)
    ensures 0.0 <= r.morale <= 100.0
  {
    var moraleChange := 0;
    if factors.wins.Some? && factors.losses.Some? {
      var games := factors.wins.value + factors.losses.value;
      var winRate := factors.wins.value as real / (if games != 0 then games else 1) as real;
      if winRate > 0.6 {
        moraleChange := moraleChange + 5;
      } else if winRate < 0.4 {
        moraleChange := moraleChange - 5;
      }
    }
    assert moraleChange == RecordEffect(factors);
    if factors.playingTime.Some? {
      moraleChange := moraleChange + if factors.playingTime.value then 3 else -4;
    }
    assert moraleChange == RecordEffect(factors) + PlayingTimeEffect(factors);
    if factors.contractSituation == Some(Unhappy) {
      moraleChange := moraleChange - 10;
    } else if factors.contractSituation == Some(Expiring) {
      moraleChange := moraleChange - 5;
    } else if factors.contractSituation == Some(Good) {
      moraleChange := moraleChange + 5;
    }
    assert moraleChange == RecordEffect(factors) + PlayingTimeEffect(factors) + ContractEffect(factors);
    if factors.teamChemistry.Some? {
      if factors.teamChemistry.value > 80.0 {
        moraleChange := moraleChange + 3;
      } else if factors.teamChemistry.value < 50.0 {
        moraleChange := moraleChange - 3;
      }
    }
    var newMorale := MaxR(0.0, MinR(100.0, p.morale + moraleChange as real));
    ClampWithin(p.morale + moraleChange as real, 0.0, 100.0);
    r := p.(morale := newMorale);
  }

  /** A morale update moves morale by at most 22 points down and 16 up. */
  lemma MoraleChangeBounds(f: MoraleFactors)
    ensures -22 <= RecordEffect(f) + PlayingTimeEffect(f) + ContractEffect(f) + ChemistryEffect(f) <= 16
  {
  }

  /** The form change for a recent ACS. */
  function FormChange(recentAcs: real): int
  {
    if recentAcs > 250.0 then 5
    else if recentAcs > 200.0 then 3
    else if recentAcs > 150.0 then 1
    else if recentAcs < 100.0 then -5
    else if recentAcs < 130.0 then -3
    else 0
  }

  function UpdateForm(p: Player, recentAcs: real): (r: Player)
    ensures r == p.(form := r.form)
    ensures 0.0 <= r.form <= 100.0
    ensures 0.0 <= p.form + FormChange(recentAcs) as real <= 100.0 ==> r.form == p.form + FormChange(recentAcs) as real
  {
    ClampWithin(p.form + FormChange(recentAcs) as real, 0.0, 100.0);
    p.(form := MaxR(0.0, MinR(100.0, p.form + FormChange(recentAcs) as real)))
  }

  /** Better recent ACS never lowers the form change, which ranges from -5
      to +5; and the new form is monotone in the recent ACS. */
  lemma FormChangeMonotone(acs1: real, acs2: real, p: Player)
    requires acs1 <= acs2
    ensures FormChange(acs1) <= FormChange(acs2)
    ensures -5 <= FormChange(acs1) <= 5
    ensures UpdateForm(p, acs1).form <= UpdateForm(p, acs2).form
  {
  }
}
