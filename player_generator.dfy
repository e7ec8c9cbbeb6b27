/** Player generation (src/utils/playerGenerator.ts): random integers in a
    range, tiered stats with role modifiers, agent pools, the id slug of a
    name, team tiers and hand-made players. Random draws come from an
    injected stream; the orders produced by random
    shuffles are supplied as permutations. */
module PlayerGenerator {
  import opened Types

  datatype Tier = S | A | B | C

  // ---------------------------------------------------------------------
  // Random integers
  // ---------------------------------------------------------------------

  /** A whole number in [min, max] picked by a draw in [0, 1), each value taking an equal share of the draws. */
  function RandomInRange(lo: int, hi: int, draw: real): (r: int)
    requires 0.0 <= draw < 1.0
    ensures lo <= hi ==> lo <= r <= hi
  {
    var width := (hi - lo + 1) as real;
    DrawTimesWidth(draw, width);
    (draw * width).Floor + lo
  }

  lemma DrawTimesWidth(draw: real, width: real)
    requires 0.0 <= draw < 1.0
    ensures 1.0 <= width ==> 0.0 <= draw * width < width
  {
  }

  /** Every value of the range is produced by some draw. */
  lemma RandomInRangeHits(lo: int, hi: int, v: int)
    requires lo <= v <= hi
    ensures 0.0 <= (v - lo) as real / (hi - lo + 1) as real < 1.0
    ensures RandomInRange(lo, hi, (v - lo) as real / (hi - lo + 1) as real) == v
  {
    var width := (hi - lo + 1) as real;
    var d := (v - lo) as real / width;
    assert d * width == (v - lo) as real;
  }

  // ---------------------------------------------------------------------
  // Stats
  // ---------------------------------------------------------------------

  function TierMin(t: Tier): int
  {
    match t
    case S => 75
    case A => 65
    case B => 55
    case C => 45
  }

  function TierMax(t: Tier): int
  {
    TierMin(t) + 20
  }

  /** The role's bonus on a stat; stamina never gets one. */
  function RoleModifier(role: Role, k: StatKey): int
  {
    match (role, k)
    case (Duelist, Mechanics) => 10
    case (Duelist, Entry) => 15
    case (Duelist, Lurking) => 5
    case (Duelist, Clutch) => 5
    case (Initiator, Igl) => 10
    case (Initiator, Support) => 15
    case (Initiator, Vibes) => 5
    case (Controller, Igl) => 15
    case (Controller, Support) => 10
    case (Controller, Mental) => 5
    case (Sentinel, Clutch) => 10
    case (Sentinel, Mental) => 10
    case (Sentinel, Support) => 5
    case _ => 0
  }

  /** Position of a stat in the stats object, which is also the order of
      its draw. */
  function StatIndex(k: StatKey): (i: nat)
    ensures i < 9 && AllStatKeys[i] == k
  {
    match k
    case Mechanics => 0
    case Igl => 1
    case Mental => 2
    case Clutch => 3
    case Vibes => 4
    case Lurking => 5
    case Entry => 6
    case Support => 7
    case Stamina => 8
  }

  /** One generated stat: a tier-range roll plus the role's modifier,
      capped at 100 (stamina is not capped). */
  function GeneratedStat(role: Role, tier: Tier, k: StatKey, draw: real): (v: real)
    requires 0.0 <= draw < 1.0
    ensures TierMin(tier) as real <= v <= 100.0
    ensures MinR(100.0, (TierMin(tier) + RoleModifier(role, k)) as real) <= v
            <= MinR(100.0, (TierMax(tier) + RoleModifier(role, k)) as real)
    ensures k == Stamina ==> TierMin(tier) as real <= v <= TierMax(tier) as real
  {
    var roll := RandomInRange(TierMin(tier), TierMax(tier), draw);
    if k == Stamina then roll as real
    else MinR(100.0, (roll + RoleModifier(role, k)) as real)
  }

  /** Nine rolls, one per stat in object order. Every stat lies between the
      tier's minimum and 100, and between the tier range shifted by the
      role's modifier (capped at 100); stamina stays in the tier range. */
  function GeneratePlayerStats(role: Role, tier: Tier, rand: DrawStream, cursor: nat): (r: Stats)
    requires ValidStream(rand)
    ensures forall k :: r.Get(k) == GeneratedStat(role, tier, k, rand(cursor + StatIndex(k)))
    ensures forall k :: TierMin(tier) as real <= r.Get(k) <= 100.0
    ensures forall k :: MinR(100.0, (TierMin(tier) + RoleModifier(role, k)) as real) <= r.Get(k)
                        <= MinR(100.0, (TierMax(tier) + RoleModifier(role, k)) as real)
    ensures TierMin(tier) as real <= r.stamina <= TierMax(tier) as real
  {
    Stats(
      GeneratedStat(role, tier, Mechanics, rand(cursor)),
      GeneratedStat(role, tier, Igl, rand(cursor + 1)),
      GeneratedStat(role, tier, Mental, rand(cursor + 2)),
      GeneratedStat(role, tier, Clutch, rand(cursor + 3)),
      GeneratedStat(role, tier, Vibes, rand(cursor + 4)),
      GeneratedStat(role, tier, Lurking, rand(cursor + 5)),
      GeneratedStat(role, tier, Entry, rand(cursor + 6)),
      GeneratedStat(role, tier, Support, rand(cursor + 7)),
      GeneratedStat(role, tier, Stamina, rand(cursor + 8)))
  }

  /** A Flex player gets no modifier: every stat stays in the tier range. */
  lemma FlexStatsInTierRange(tier: Tier, rand: DrawStream, cursor: nat)
    requires ValidStream(rand)
    ensures GeneratePlayerStats(Flex, tier, rand, cursor).Within(TierMin(tier) as real, TierMax(tier) as real)
  {
    var r := GeneratePlayerStats(Flex, tier, rand, cursor);
    forall k ensures TierMin(tier) as real <= r.Get(k) <= TierMax(tier) as real {
      assert RoleModifier(Flex, k) == 0;
    }
  }

  // ---------------------------------------------------------------------
  // Agent pools
  // ---------------------------------------------------------------------

  /** The agents of each role, in the order the generator lists them. */
  function RoleAgents(role: Role): seq<Agent>
  {
    match role
    case Duelist => [Jett, Raze, Neon, Yoru, Phoenix, Reyna, Iso]
    case Controller => [Omen, Astra, Viper, Brimstone, Harbor, Clove]
    case Initiator => [Sova, Fade, Gekko, Breach, Skye, KayO, Tejo]
    case Sentinel => [Cypher, Killjoy, Chamber, Sage, Deadlock, Vyse]
    case Flex => []
  }

  /** The role an agent belongs to. */
  function AgentRole(a: Agent): Role
  {
    match a
    case Jett => Duelist case Phoenix => Duelist case Reyna => Duelist case Raze => Duelist
    case Yoru => Duelist case Neon => Duelist case Iso => Duelist
    case Brimstone => Controller case Viper => Controller case Omen => Controller
    case Astra => Controller case Harbor => Controller case Clove => Controller
    case Sova => Initiator case Breach => Initiator case Skye => Initiator case KayO => Initiator
    case Fade => Initiator case Gekko => Initiator case Tejo => Initiator
    case Sage => Sentinel case Cypher => Sentinel case Killjoy => Sentinel
    case Chamber => Sentinel case Deadlock => Sentinel case Vyse => Sentinel
  }

  /** Every listed agent belongs to its role, none is listed twice, every
      agent of the role is listed, and a concrete role lists at least six. */
  lemma RoleAgentsFacts(role: Role)
    ensures forall a :: a in RoleAgents(role) <==> AgentRole(a) == role && role != Flex
    ensures forall i, j :: 0 <= i < j < |RoleAgents(role)| ==> RoleAgents(role)[i] != RoleAgents(role)[j]
    ensures role != Flex ==> |RoleAgents(role)| >= 6
  {
  }

  /** The four roles a Flex player draws agents from. */
  const FlexRoles: seq<Role> := [Duelist, Initiator, Controller, Sentinel]

  /** A reordering of a concrete role's agent list: as many agents as the
      list, every one of that role, none twice. */
  predicate RoleList(order: seq<Agent>, role: Role)
  {
    && role != Flex
    && |order| == |RoleAgents(role)|
    && (forall i :: 0 <= i < |order| ==> AgentRole(order[i]) == role)
    && (forall i, j :: 0 <= i < j < |order| ==> order[i] != order[j])
  }

  /** The random orders one generated pool uses: the order of the four
      roles and one order per role (for a Flex player), or the order of
      the player's own role list in `agentOrders[0]`. */
  datatype PoolShuffle = PoolShuffle(roleOrder: seq<Role>, agentOrders: seq<seq<Agent>>)

  /** The orders are reorderings of the lists the generator shuffles. */
  predicate ValidPoolShuffle(sh: PoolShuffle, role: Role)
  {
    if role == Flex then
      && |sh.roleOrder| == 4 && |sh.agentOrders| == 4
      && (forall i, j :: 0 <= i < j < 4 ==> sh.roleOrder[i] != sh.roleOrder[j])
      && (forall i :: 0 <= i < 4 ==> RoleList(sh.agentOrders[i], sh.roleOrder[i]))
    else
      |sh.agentOrders| >= 1 && RoleList(sh.agentOrders[0], role)
  }

  /** The pool orders of a batch of generated players: the one for the
      `i`-th player when it has role `r`. */
  type ShuffleSource = (nat, Role) -> PoolShuffle

  ghost predicate ValidShuffleSource(src: ShuffleSource)
  {
    forall i, r :: ValidPoolShuffle(src(i, r), r)
  }

  lemma RoleListLength(order: seq<Agent>, role: Role)
    requires RoleList(order, role)
    ensures |order| >= 6
  {
    RoleAgentsFacts(role);
  }

  /** A Flex player's proficiency on the `index`-th agent of a role: 70-90
      for the first, 50-75 for the others. */
  function FlexProficiency(index: nat, draw: real): (p: int)
    requires 0.0 <= draw < 1.0
    ensures 50 <= p <= 90
    ensures index == 0 ==> 70 <= p
  {
    if index == 0 then RandomInRange(70, 90, draw) else RandomInRange(50, 75, draw)
  }

  /** Every entry of a Flex pool belongs to one of the chosen roles, each
      chosen role supplies entries, and proficiencies lie in [50, 90]. */
  predicate FlexPoolShape(pool: seq<AgentEntry>, chosen: seq<Role>)
  {
    && (forall e :: e in pool ==> AgentRole(e.agent) in chosen && 50.0 <= e.proficiency <= 90.0)
    && (forall r :: r in chosen ==> exists e :: e in pool && AgentRole(e.agent) == r)
  }

  /** No agent has two entries in a pool (the source's pool is a record
      keyed by agent). */
  predicate DistinctAgents(pool: seq<AgentEntry>)
  {
    forall i, j :: 0 <= i < j < |pool| ==> pool[i].agent != pool[j].agent
  }

  /** The entries one chosen role gives a Flex pool: the count 2-4 drawn
      at `cursor`, then the first that many agents of the shuffled list,
      the i-th with the proficiency drawn at `cursor + 1 + i`. */
  function FlexRoleEntries(order: seq<Agent>, rand: DrawStream, cursor: nat): (added: seq<AgentEntry>)
    requires ValidStream(rand) && |order| >= 4
    ensures |added| == RandomInRange(2, 4, rand(cursor))
  {
    var n := RandomInRange(2, 4, rand(cursor));
    seq(n, i requires 0 <= i < n => AgentEntry(order[i], FlexProficiency(i, rand(cursor + 1 + i)) as real))
  }

  /** The cursor after the first n roles of `orders` have drawn, starting
      at `cursor`: each role takes one draw for its count and one per agent. */
  function FlexEnd(orders: seq<seq<Agent>>, n: nat, rand: DrawStream, cursor: nat): (end: nat)
    requires ValidStream(rand) && n <= |orders|
    ensures end >= cursor + 3 * n
  {
    if n == 0 then cursor
    else
      var c := FlexEnd(orders, n - 1, rand, cursor);
      c + 1 + RandomInRange(2, 4, rand(c))
  }

  /** Every shuffled list is long enough for the largest slice taken. */
  predicate LongOrders(orders: seq<seq<Agent>>)
  {
    forall i :: 0 <= i < |orders| ==> |orders[i]| >= 4
  }

  /** The Flex pool the first n shuffled lists give, drawing from `cursor`:
      each role's entries in turn, each role drawing where the previous
      one stopped. */
  function FlexPool(orders: seq<seq<Agent>>, n: nat, rand: DrawStream, cursor: nat): (pool: seq<AgentEntry>)
    requires ValidStream(rand) && n <= |orders| && LongOrders(orders)
  {
    if n == 0 then []
    else FlexPool(orders, n - 1, rand, cursor) + FlexRoleEntries(orders[n - 1], rand, FlexEnd(orders, n - 1, rand, cursor))
  }

  /** The lists of a valid Flex shuffle are long enough. */
  lemma FlexOrdersLong(sh: PoolShuffle)
    requires ValidPoolShuffle(sh, Flex)
    ensures LongOrders(sh.agentOrders)
  {
    forall i | 0 <= i < |sh.agentOrders| ensures |sh.agentOrders[i]| >= 4 {
      RoleListLength(sh.agentOrders[i], sh.roleOrder[i]);
    }
  }

  /** What one chosen role adds to a Flex pool: the first 2-4 agents of its
      shuffled list, each with its own proficiency draw. */
  method AddFlexRole(r: Role, order: seq<Agent>, rand: DrawStream, cursor: nat)
    returns (added: seq<AgentEntry>, next: nat)
    requires ValidStream(rand) && RoleList(order, r)
    ensures |added| == RandomInRange(2, 4, rand(cursor))
    ensures next == cursor + 1 + |added|
    ensures 2 <= |added| <= 4
    ensures forall i :: 0 <= i < |added| ==>
      added[i] == AgentEntry(order[i], FlexProficiency(i, rand(cursor + 1 + i)) as real)
    ensures forall e :: e in added ==> AgentRole(e.agent) == r && 50.0 <= e.proficiency <= 90.0
    ensures DistinctAgents(added)
    ensures added == FlexRoleEntries(order, rand, cursor)
  {
    RoleListLength(order, r);
    var numAgents := RandomInRange(2, 4, rand(cursor));
    next := cursor + 1;
    added := [];
    for index := 0 to numAgents
      invariant next == cursor + 1 + index && |added| == index
      invariant forall i :: 0 <= i < index ==>
        added[i] == AgentEntry(order[i], FlexProficiency(i, rand(cursor + 1 + i)) as real)
      invariant forall e :: e in added ==> AgentRole(e.agent) == r && 50.0 <= e.proficiency <= 90.0
    {
      var agent := order[index];
      var proficiency := FlexProficiency(index, rand(next));
      next := next + 1;
      added := added + [AgentEntry(agent, proficiency as real)];
    }
  }

  lemma FlexShapeExtend(pool: seq<AgentEntry>, added: seq<AgentEntry>, chosen: seq<Role>, r: Role)
    requires FlexPoolShape(pool, chosen) && DistinctAgents(pool) && DistinctAgents(added) && r !in chosen
    requires added != [] && forall e :: e in added ==> AgentRole(e.agent) == r && 50.0 <= e.proficiency <= 90.0
    ensures FlexPoolShape(pool + added, chosen + [r])
    ensures DistinctAgents(pool + added)
  {
    var p, c := pool + added, chosen + [r];
    assert added[0] in p;
    forall e | e in p ensures AgentRole(e.agent) in c && 50.0 <= e.proficiency <= 90.0 {
      if e !in pool {
        assert e in added;
      }
    }
    forall r' | r' in c ensures exists e :: e in p && AgentRole(e.agent) == r' {
      if r' in chosen {
        var e :| e in pool && AgentRole(e.agent) == r';
        assert e in p;
      } else {
        assert added[0] in p && AgentRole(added[0].agent) == r';
      }
    }
    forall i, j | 0 <= i < j < |p| ensures p[i].agent != p[j].agent {
      if j >= |pool| && i < |pool| {
        assert p[i] in pool && p[j] in added;
        assert AgentRole(p[i].agent) in chosen;
      }
    }
  }

  /** A Flex pool: 2 or 3 of the four roles, 2 to 4 agents from each. */
  method GenerateFlexPool(sh: PoolShuffle, rand: DrawStream, cursor: nat)
    returns (pool: seq<AgentEntry>, next: nat)
    requires ValidStream(rand) && ValidPoolShuffle(sh, Flex)
    ensures next > cursor
    ensures pool == FlexPool(sh.agentOrders, RandomInRange(2, 3, rand(cursor)), rand, cursor + 1)
    ensures FlexPoolShape(pool, sh.roleOrder[..RandomInRange(2, 3, rand(cursor))])
    ensures DistinctAgents(pool)
    ensures 4 <= |pool| <= 12
  {
    var numRoles := RandomInRange(2, 3, rand(cursor));
    next := cursor + 1;
    pool := [];
    FlexOrdersLong(sh);
    for ri := 0 to numRoles
      invariant next > cursor
      invariant pool == FlexPool(sh.agentOrders, ri, rand, cursor + 1)
      invariant next == FlexEnd(sh.agentOrders, ri, rand, cursor + 1)
      invariant 2 * ri <= |pool| <= 4 * ri
      invariant FlexPoolShape(pool, sh.roleOrder[..ri])
      invariant DistinctAgents(pool)
    {
      var r := sh.roleOrder[ri];
      var added;
      RoleListLength(sh.agentOrders[ri], r);
      added, next := AddFlexRole(r, sh.agentOrders[ri], rand, next);
      assert r !in sh.roleOrder[..ri];
      FlexShapeExtend(pool, added, sh.roleOrder[..ri], r);
      assert sh.roleOrder[..ri + 1] == sh.roleOrder[..ri] + [r];
      pool := pool + added;
    }
  }

  /** The base proficiency of a tier: S 80-95, A 70-85, B 60-75, C 50-65. */
  function BaseProficiency(tier: Tier, draw: real): (p: int)
    requires 0.0 <= draw < 1.0
    ensures 50 <= p <= 95
  {
    match tier
    case S => RandomInRange(80, 95, draw)
    case A => RandomInRange(70, 85, draw)
    case B => RandomInRange(60, 75, draw)
    case C => RandomInRange(50, 65, draw)
  }

  /** How many agents a non-Flex player gets: 3-5 for S and A, else 2-4. */
  function PoolSize(tier: Tier, draw: real): (n: int)
    requires 0.0 <= draw < 1.0
    ensures tier == S || tier == A ==> 3 <= n <= 5
    ensures tier == B || tier == C ==> 2 <= n <= 4
  {
    if tier == S || tier == A then RandomInRange(3, 5, draw) else RandomInRange(2, 4, draw)
  }

  /** The proficiency the code gives the `index`-th agent of a non-Flex
      pool whose draws start at `cursor`: every agent draws its own base
      (the first from cursor + 1, agent i >= 1 from cursor + 2i) and the
      others then lose 5-15 points, floored at 50. */
  function AsWrittenProficiency(tier: Tier, rand: DrawStream, cursor: nat, index: nat): (p: int)
    requires ValidStream(rand)
    ensures 50 <= p <= 95
  {
    if index == 0 then BaseProficiency(tier, rand(cursor + 1))
    else
      var base := BaseProficiency(tier, rand(cursor + 2 * index));
      var cut := RandomInRange(5, 15, rand(cursor + 2 * index + 1));
      if base - cut >= 50 then base - cut else 50
  }

  /** A non-Flex pool as the code builds it: the first `PoolSize` agents of
      the shuffled role list with `AsWrittenProficiency`. */
  method GenerateRolePoolAsWritten(role: Role, tier: Tier, shuffled: seq<Agent>, rand: DrawStream, cursor: nat)
    returns (pool: seq<AgentEntry>, next: nat)
    requires ValidStream(rand) && RoleList(shuffled, role)
    ensures |pool| == PoolSize(tier, rand(cursor))
    ensures next == cursor + 2 * |pool|
    ensures forall i :: 0 <= i < |pool| ==>
      pool[i].agent == shuffled[i] && AgentRole(pool[i].agent) == role
      && pool[i].proficiency == AsWrittenProficiency(tier, rand, cursor, i) as real
    ensures forall i, j :: 0 <= i < j < |pool| ==> pool[i].agent != pool[j].agent
  {
    RoleListLength(shuffled, role);
    var numAgents := PoolSize(tier, rand(cursor));
    next := cursor + 1;
    pool := [];
    for index := 0 to numAgents
      invariant |pool| == index
      invariant next == cursor + 1 + (if index == 0 then 0 else 2 * index - 1)
      invariant forall i :: 0 <= i < index ==>
        pool[i].agent == shuffled[i] && AgentRole(pool[i].agent) == role
        && pool[i].proficiency == AsWrittenProficiency(tier, rand, cursor, i) as real
    {
      var agent := shuffled[index];
      ghost var baseAt := next;
      assert baseAt == cursor + (if index == 0 then 1 else 2 * index);
      var baseProficiency := BaseProficiency(tier, rand(next));
      next := next + 1;
      var proficiency := baseProficiency;
      if index != 0 {
        assert next == cursor + 2 * index + 1;
        proficiency := baseProficiency - RandomInRange(5, 15, rand(next));
        next := next + 1;
      }
      var value := if proficiency >= 50 then proficiency else 50;
      AsWrittenStep(tier, rand, cursor, index, baseProficiency, proficiency);
      pool := pool + [AgentEntry(agent, value as real)];
    }
  }

  lemma AsWrittenStep(tier: Tier, rand: DrawStream, cursor: nat, index: nat, base: int, proficiency: int)
    requires ValidStream(rand)
    requires base == BaseProficiency(tier, rand(cursor + (if index == 0 then 1 else 2 * index)))
    requires proficiency == if index == 0 then base else base - RandomInRange(5, 15, rand(cursor + 2 * index + 1))
    ensures AsWrittenProficiency(tier, rand, cursor, index) == if proficiency >= 50 then proficiency else 50
  {
  }

  /** The first agent is not always the best one: an S-tier pool can get
      80 on its first agent and 90 on its second. */
  lemma FirstAgentNotBest()
    ensures
      var rand: DrawStream := k => if k == 2 then 0.99 else 0.0;
      AsWrittenProficiency(S, rand, 0, 0) == 80 && AsWrittenProficiency(S, rand, 0, 1) == 90
  {
    var rand: DrawStream := k => if k == 2 then 0.99 else 0.0;
    assert rand(1) == 0.0 && rand(2) == 0.99 && rand(3) == 0.0;
    assert RandomInRange(80, 95, 0.0) == 80;
    assert RandomInRange(80, 95, 0.99) == 95 by {
      assert 0.99 * 16.0 == 15.84;
    }
    assert RandomInRange(5, 15, 0.0) == 5;
  }

  /** The intended proficiency: one base for the player (drawn at
      cursor + 1); agent i >= 1 loses 5-15 points from it (draw at
      cursor + 1 + i), floored at 50. */
  function IntendedProficiency(tier: Tier, rand: DrawStream, cursor: nat, index: nat): (p: int)
    requires ValidStream(rand)
    ensures 50 <= p <= 95
    ensures p <= BaseProficiency(tier, rand(cursor + 1))
    ensures index == 0 ==> p == BaseProficiency(tier, rand(cursor + 1))
  {
    var base := BaseProficiency(tier, rand(cursor + 1));
    if index == 0 then base
    else
      var cut := RandomInRange(5, 15, rand(cursor + 1 + index));
      if base - cut >= 50 then base - cut else 50
  }

  lemma IntendedStep(tier: Tier, rand: DrawStream, cursor: nat, index: nat, base: int, proficiency: int)
    requires ValidStream(rand)
    requires base == BaseProficiency(tier, rand(cursor + 1))
    requires proficiency == if index == 0 then base else base - RandomInRange(5, 15, rand(cursor + 1 + index))
    ensures IntendedProficiency(tier, rand, cursor, index) == if proficiency >= 50 then proficiency else 50
  {
  }

  /** A non-Flex pool with one base proficiency, so that the first agent
      is the player's best. */
  method GenerateRolePool(role: Role, tier: Tier, shuffled: seq<Agent>, rand: DrawStream, cursor: nat)
    returns (pool: seq<AgentEntry>, next: nat)
    requires ValidStream(rand) && RoleList(shuffled, role)
    ensures |pool| == PoolSize(tier, rand(cursor))
    ensures next == cursor + 1 + |pool|
    ensures forall i :: 0 <= i < |pool| ==>
      pool[i].agent == shuffled[i] && AgentRole(pool[i].agent) == role
      && pool[i].proficiency == IntendedProficiency(tier, rand, cursor, i) as real
    ensures forall i, j :: 0 <= i < j < |pool| ==> pool[i].agent != pool[j].agent
    ensures forall i :: 0 <= i < |pool| ==> 50.0 <= pool[i].proficiency <= pool[0].proficiency <= 95.0
  {
    RoleListLength(shuffled, role);
    var numAgents := PoolSize(tier, rand(cursor));
    var baseProficiency := BaseProficiency(tier, rand(cursor + 1));
    next := cursor + 2;
    pool := [];
    for index := 0 to numAgents
      invariant |pool| == index
      invariant next == cursor + 1 + (if index == 0 then 1 else index)
      invariant forall i :: 0 <= i < index ==>
        pool[i].agent == shuffled[i] && AgentRole(pool[i].agent) == role
        && pool[i].proficiency == IntendedProficiency(tier, rand, cursor, i) as real
    {
      var agent := shuffled[index];
      var proficiency := baseProficiency;
      if index != 0 {
        proficiency := baseProficiency - RandomInRange(5, 15, rand(next));
        next := next + 1;
      }
      var value := if proficiency >= 50 then proficiency else 50;
      IntendedStep(tier, rand, cursor, index, baseProficiency, proficiency);
      pool := pool + [AgentEntry(agent, value as real)];
    }
  }

  /** The agent pool of a generated player. */
  method GenerateAgentPool(role: Role, tier: Tier, sh: PoolShuffle, rand: DrawStream, cursor: nat)
    returns (pool: seq<AgentEntry>, next: nat)
    requires ValidStream(rand) && ValidPoolShuffle(sh, role)
    ensures next > cursor
    ensures role == Flex ==> FlexPoolShape(pool, sh.roleOrder[..RandomInRange(2, 3, rand(cursor))]) && 4 <= |pool| <= 12
    ensures PoolDrawn(pool, role, tier, sh, rand, cursor)
  {
    if role == Flex {
      pool, next := GenerateFlexPool(sh, rand, cursor);
    } else {
      pool, next := GenerateRolePool(role, tier, sh.agentOrders[0], rand, cursor);
    }
  }

  /** The pool drawn from `cursor`: no agent twice; for Flex, 4-12 entries
      from 2-3 of the shuffled roles; otherwise the first `PoolSize`
      agents of the shuffled role list with `IntendedProficiency`. */
  predicate PoolDrawn(pool: seq<AgentEntry>, role: Role, tier: Tier, sh: PoolShuffle, rand: DrawStream, cursor: nat)
    requires ValidStream(rand) && ValidPoolShuffle(sh, role)
  {
    && DistinctAgents(pool)
    && if role == Flex then
         && LongOrders(sh.agentOrders)
         && pool == FlexPool(sh.agentOrders, RandomInRange(2, 3, rand(cursor)), rand, cursor + 1)
         && 4 <= |pool| <= 12 && FlexPoolShape(pool, sh.roleOrder[..RandomInRange(2, 3, rand(cursor))])
       else
         && |pool| == PoolSize(tier, rand(cursor))
         && |pool| <= |sh.agentOrders[0]|
         && forall i :: 0 <= i < |pool| ==>
              pool[i].agent == sh.agentOrders[0][i]
              && pool[i].proficiency == IntendedProficiency(tier, rand, cursor, i) as real
  }

  /** A drawn pool keeps to its role's agents; a single role's pool lies in
      [50, 95] with its first agent the best, a Flex pool in [50, 90]. */
  lemma PoolDrawnFacts(pool: seq<AgentEntry>, role: Role, tier: Tier, sh: PoolShuffle, rand: DrawStream, cursor: nat)
    requires ValidStream(rand) && ValidPoolShuffle(sh, role)
    requires PoolDrawn(pool, role, tier, sh, rand, cursor)
    ensures role != Flex ==> forall e :: e in pool ==> AgentRole(e.agent) == role && 50.0 <= e.proficiency <= 95.0
    ensures role != Flex ==> forall i :: 0 <= i < |pool| ==> pool[i].proficiency <= pool[0].proficiency
    ensures role == Flex ==> forall e :: e in pool ==> 50.0 <= e.proficiency <= 90.0
  {
    if role != Flex {
      forall e | e in pool ensures AgentRole(e.agent) == role && 50.0 <= e.proficiency <= 95.0 {
        var i :| 0 <= i < |pool| && pool[i] == e;
      }
    }
  }

  // ---------------------------------------------------------------------
  // Player ids
  // ---------------------------------------------------------------------

  /** The ASCII characters `\s` matches, and the no-break space. */
  predicate IsWhitespace(c: char)
  {
    c == ' ' || c == '\t' || c == '\n' || c == '\r' || c == '\U{0B}' || c == '\U{0C}' || c == '\U{A0}'
  }

  function ToLower(c: char): (r: char)
    ensures !('A' <= r <= 'Z')
    ensures IsWhitespace(r) <==> IsWhitespace(c)
  {
    if 'A' <= c <= 'Z' then (c as int + 32) as char else c
  }

  function LowerCase(s: string): (r: string)
    ensures |r| == |s|
    ensures forall i :: 0 <= i < |s| ==> r[i] == ToLower(s[i])
  {
    if s == [] then [] else [ToLower(s[0])] + LowerCase(s[1..])
  }

  /** Each run of whitespace turned into one hyphen; `inRun` says the
      previous character was whitespace. */
  function CollapseWhitespace(s: string, inRun: bool): (r: string)
    ensures |r| <= |s|
    ensures forall c :: c in r ==> c == '-' || (c in s && !IsWhitespace(c))
  {
    if s == [] then []
    else if IsWhitespace(s[0]) then
      (if inRun then [] else "-") + CollapseWhitespace(s[1..], true)
    else [s[0]] + CollapseWhitespace(s[1..], false)
  }

  /** The player id made from a name: lower-cased, each run of whitespace turned into one hyphen. */
  function Slug(name: string): (id: string)
    ensures forall c :: c in id ==> !IsWhitespace(c) && !('A' <= c <= 'Z')
  {
    var lower := LowerCase(name);
    assert forall c :: c in lower ==> !('A' <= c <= 'Z');
    CollapseWhitespace(lower, false)
  }

  predicate NoWhitespace(s: string)
  {
    forall c :: c in s ==> !IsWhitespace(c)
  }

  lemma {:induction false} CollapseNoWhitespace(s: string, inRun: bool)
    requires NoWhitespace(s)
    ensures CollapseWhitespace(s, inRun) == s
  {
    if s != [] {
      CollapseNoWhitespace(s[1..], false);
    }
  }

  lemma LowerCaseNoUpper(s: string)
    requires forall c :: c in s ==> !('A' <= c <= 'Z')
    ensures LowerCase(s) == s
  {
    forall i | 0 <= i < |s| ensures LowerCase(s)[i] == s[i] {
      assert s[i] in s;
    }
  }

  /** A slug is its own slug. */
  lemma SlugIdempotent(name: string)
    ensures Slug(Slug(name)) == Slug(name)
  {
    var id := Slug(name);
    LowerCaseNoUpper(id);
    CollapseNoWhitespace(id, false);
  }

  /** Whether the run state after reading `s` starting from `inRun`. */
  function RunAfter(s: string, inRun: bool): bool
  {
    if s == [] then inRun else IsWhitespace(s[|s| - 1])
  }

  lemma {:induction false} CollapseAppend(s: string, t: string, inRun: bool)
    ensures CollapseWhitespace(s + t, inRun) == CollapseWhitespace(s, inRun) + CollapseWhitespace(t, RunAfter(s, inRun))
  {
    if s != [] {
      assert (s + t)[0] == s[0] && (s + t)[1..] == s[1..] + t;
      CollapseAppend(s[1..], t, IsWhitespace(s[0]));
      assert RunAfter(s[1..], IsWhitespace(s[0])) == RunAfter(s, inRun) by {
        if |s| > 1 {
          assert s[1..][|s| - 2] == s[|s| - 1];
        }
      }
      var head := if !IsWhitespace(s[0]) then [s[0]] else if inRun then [] else "-";
      var rest, tail := CollapseWhitespace(s[1..], IsWhitespace(s[0])), CollapseWhitespace(t, RunAfter(s, inRun));
      assert CollapseWhitespace(s + t, inRun) == head + (rest + tail);
      assert CollapseWhitespace(s, inRun) == head + rest;
      assert head + (rest + tail) == (head + rest) + tail;
    } else {
      assert s + t == t;
    }
  }

  lemma {:induction false} CollapseRun(ws: string, inRun: bool)
    requires forall c :: c in ws ==> IsWhitespace(c)
    ensures CollapseWhitespace(ws, inRun) == if inRun || ws == [] then [] else "-"
  {
    if ws != [] {
      CollapseRun(ws[1..], true);
    }
  }

  lemma {:induction false} LowerCaseAppend(s: string, t: string)
    ensures LowerCase(s + t) == LowerCase(s) + LowerCase(t)
  {
    var l, r := LowerCase(s + t), LowerCase(s) + LowerCase(t);
    assert |l| == |r|;
    forall i | 0 <= i < |l| ensures l[i] == r[i] {
      if i < |s| {
        assert (s + t)[i] == s[i];
      } else {
        assert (s + t)[i] == t[i - |s|];
      }
    }
  }

  /** Two words separated by a run of whitespace become the lower-case
      words joined by a single dash. */
  lemma SlugJoinsWords(first: string, ws: string, second: string)
    requires first != [] && NoWhitespace(first) && NoWhitespace(second)
    requires ws != [] && forall c :: c in ws ==> IsWhitespace(c)
    ensures Slug(first + ws + second) == LowerCase(first) + "-" + LowerCase(second)
  {
    LowerCaseAppend(first + ws, second);
    LowerCaseAppend(first, ws);
    var f, w, s := LowerCase(first), LowerCase(ws), LowerCase(second);
    assert LowerCase(first + ws + second) == f + w + s;
    assert NoWhitespace(f) && NoWhitespace(s) && w != [];
    assert forall c :: c in w ==> IsWhitespace(c);
    CollapseAppend(f + w, s, false);
    CollapseAppend(f, w, false);
    CollapseNoWhitespace(f, false);
    assert !IsWhitespace(f[|f| - 1]);
    assert RunAfter(f, false) == false;
    CollapseRun(w, false);
    assert RunAfter(f + w, false) == true by {
      assert (f + w)[|f + w| - 1] == w[|w| - 1];
    }
    CollapseNoWhitespace(s, true);
    assert CollapseWhitespace(f + w, false) == f + "-";
    assert CollapseWhitespace(f + w + s, false) == (f + "-") + s;
  }

  // ---------------------------------------------------------------------
  // Players
  // ---------------------------------------------------------------------

  /** The given age, or one drawn in [18, 28] when none or 0 is given. */
  function AgeOrRandom(age: Option<int>, draw: real): (r: int)
    requires 0.0 <= draw < 1.0
    ensures age.Some? && age.value != 0 ==> r == age.value
    ensures age.None? || age.value == 0 ==> 18 <= r <= 28
  {
    if age.Some? && age.value != 0 then age.value else RandomInRange(18, 28, draw)
  }

  /** Where the stat draws start: after the age draw, which is made only
      when no (non-zero) age is given. */
  function AfterAge(age: Option<int>, cursor: nat): nat
  {
    if age.Some? && age.value != 0 then cursor else cursor + 1
  }

  /** A generated player: slug id, the given role as preferred role, rolled
      stats and agent pool, no synergies, map proficiency or team. */
  method GeneratePlayer(name: string, role: Role, region: Region, tier: Tier, age: Option<int>,
                        sh: PoolShuffle, rand: DrawStream, cursor: nat)
    returns (p: Player, next: nat)
    requires ValidStream(rand) && ValidPoolShuffle(sh, role)
    ensures next > cursor
    ensures p.id == Slug(name) && p.name == name && p.region == region
    ensures p.role == role && p.preferredRole == role
    ensures p.synergies == [] && p.mapProficiency == map[]
    ensures p.contract == None && p.teamId == None && p.status == Unassigned
    ensures age.Some? && age.value != 0 ==> p.age == age.value
    ensures age.None? || age.value == 0 ==> 18 <= p.age <= 28
    ensures p.stats == GeneratePlayerStats(role, tier, rand, AfterAge(age, cursor))
    ensures PoolDrawn(p.agentPool, role, tier, sh, rand, AfterAge(age, cursor) + 9)
  {
    var playerAge := AgeOrRandom(age, rand(cursor));
    p, next := NewPlayer(name, playerAge, role, region, tier, sh, rand, AfterAge(age, cursor));
  }

  /** The record `GeneratePlayer` returns once the age is known: nine stat
      draws from `cursor` on, then the agent pool, and no synergies, map
      proficiency, contract or team. */
  method NewPlayer(name: string, age: int, role: Role, region: Region, tier: Tier,
                   sh: PoolShuffle, rand: DrawStream, cursor: nat)
    returns (p: Player, next: nat)
    requires ValidStream(rand) && ValidPoolShuffle(sh, role)
    ensures next > cursor
    ensures p.id == Slug(name) && p.name == name && p.age == age && p.region == region
    ensures p.role == role && p.preferredRole == role
    ensures p.synergies == [] && p.mapProficiency == map[]
    ensures p.contract == None && p.teamId == None && p.status == Unassigned
    ensures p.stats == GeneratePlayerStats(role, tier, rand, cursor)
    ensures PoolDrawn(p.agentPool, role, tier, sh, rand, cursor + 9)
  {
    var stats := GeneratePlayerStats(role, tier, rand, cursor);
    var pool;
    pool, next := GenerateAgentPool(role, tier, sh, rand, cursor + 9);
    p := Player(Slug(name), name, age, region, role, role, stats, None, None, pool, [], map[],
                Unassigned, 0.0, 0.0, 0.0, 0.0);
  }

  const STierTeams: seq<string> :=
    ["Sentinels", "Gen.G", "Team Heretics", "Fnatic", "G2 Esports", "Paper Rex", "Team Vitality", "EDward Gaming"]

  const ATierTeams: seq<string> :=
    ["NRG", "100 Thieves", "Leviatán", "DRX", "T1", "Team Liquid", "NAVI", "Karmine Corp"]

  /** Whether the tier of a team needs a draw (it is in neither list). */
  predicate TierIsRandom(teamName: string)
  {
    teamName !in STierTeams && teamName !in ATierTeams
  }

  /** S for the listed elite teams, A for the listed good ones, otherwise
      B or C by a draw. */
  function GetTeamTier(teamName: string, draw: real): (t: Tier)
    ensures teamName in STierTeams ==> t == S
    ensures teamName !in STierTeams && teamName in ATierTeams ==> t == A
    ensures TierIsRandom(teamName) ==> (t == B <==> draw > 0.5) && (t == C <==> draw <= 0.5)
  {
    if teamName in STierTeams then S
    else if teamName in ATierTeams then A
    else if draw > 0.5 then B
    else C
  }

  /** The default stats with each supplied stat put in its place. */
  function OverrideStats(defaults: Stats, overrides: map<StatKey, real>): (r: Stats)
    ensures forall k :: r.Get(k) == if k in overrides then overrides[k] else defaults.Get(k)
  {
    Stats(
      if Mechanics in overrides then overrides[Mechanics] else defaults.mechanics,
      if Igl in overrides then overrides[Igl] else defaults.igl,
      if Mental in overrides then overrides[Mental] else defaults.mental,
      if Clutch in overrides then overrides[Clutch] else defaults.clutch,
      if Vibes in overrides then overrides[Vibes] else defaults.vibes,
      if Lurking in overrides then overrides[Lurking] else defaults.lurking,
      if Entry in overrides then overrides[Entry] else defaults.entry,
      if Support in overrides then overrides[Support] else defaults.support,
      if Stamina in overrides then overrides[Stamina] else defaults.stamina)
  }

  /** A hand-made player: the supplied stats override S-tier defaults
      key by key, and the supplied pool and age are kept. */
  function CreateCustomPlayer(name: string, role: Role, region: Region, stats: map<StatKey, real>,
                              agentPool: seq<AgentEntry>, age: int, rand: DrawStream, cursor: nat): (p: Player)
    requires ValidStream(rand)
    ensures p.id == Slug(name) && p.name == name && p.age == age && p.role == role && p.preferredRole == role
    ensures p.region == region && p.contract == None && p.teamId == None && p.status == Unassigned
    ensures p.agentPool == agentPool && p.synergies == [] && p.mapProficiency == map[]
    ensures p.stats == OverrideStats(GeneratePlayerStats(role, S, rand, cursor), stats)
    ensures forall k :: k in stats ==> p.stats.Get(k) == stats[k]
    ensures forall k :: k !in stats ==> 75.0 <= p.stats.Get(k) <= 100.0
  {
    var defaults := GeneratePlayerStats(role, S, rand, cursor);
    Player(Slug(name), name, age, region, role, role, OverrideStats(defaults, stats), None, None,
           agentPool, [], map[], Unassigned, 0.0, 0.0, 0.0, 0.0)
  }
}
