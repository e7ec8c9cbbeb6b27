/** Free agents (src/utils/freeAgentGenerator.ts): a batch of generated
    tier-2 players with names drawn from a regional pool, ranked by their
    mean stat, and the suggestions offered to a roster short of some
    roles. */
module FreeAgentGenerator {
  import opened Types
  import PlayerGenerator
  import Sorting

  // ---------------------------------------------------------------------
  // Generation
  // ---------------------------------------------------------------------

  /** The regional pools of tier-2 player names. */
  function Tier2Names(region: Region): (names: seq<string>)
    ensures |names| >= 15
  {
    match region
    case Americas => [
      "gMd", "seven", "alvinboy", "vora", "Timotino",
      "YaBoiDre", "ethos", "jakee", "brawk", "Verno",
      "mitch", "bjor", "XXiF", "Reduxx", "koalanoob",
      "nismo", "Thief", "Genghsta", "NaturE", "Zander",
      "dapr", "corey", "Wedid", "mada", "penny"]
    case EMEA => [
      "soulcas", "AvovA", "MOLSI", "NiKo", "Click",
      "Rosé", "Crewen", "Loita", "Lar0k", "echo",
      "Alive", "Minny", "hoody", "Avez", "Destrian",
      "nekky", "s0pp", "audaz", "Favian", "Kai",
      "Cender", "Logan", "Sociable", "ALIVE", "Kadavra"]
    case Pacific => [
      "Monyet", "Jemkin", "fl1pzjder", "Estrella", "Lmemore",
      "JoxJo", "Retla", "Esperanza", "eKo", "Izu",
      "BeYN", "Persia", "Seoldam", "Bangnan", "iNTRO",
      "Whitecat", "Lightningfast", "Bazzi", "Excali", "SkRossi",
      "invy", "DubsteP", "Wild0reoo", "JessieVash", "Jremy"]
    case China => [
      "Nobody", "CHICHOO", "KangKang", "Smoggy", "S1Mon",
      "Haodong", "Life", "Yuicaw", "yoman", "AAAAY",
      "AfteR", "Ninebody", "Evo", "Shion", "autumn"]
  }

  /** The index a draw in [0, 1) picks from a list of n names. */
  function DrawIndex(n: nat, draw: real): (i: nat)
    requires n > 0 && 0.0 <= draw < 1.0
    ensures i < n
  {
    PlayerGenerator.RandomInRange(0, n - 1, draw)
  }

  /** An age in [lo, hi] picked by a draw, by the same integer formula as
      the player generator's whole-number range. */
  function RandomAge(lo: int, hi: int, draw: real): (age: int)
    requires 0.0 <= draw < 1.0
    ensures lo <= hi ==> lo <= age <= hi
  {
    PlayerGenerator.RandomInRange(lo, hi, draw)
  }

  const GeneratedRoles: seq<Role> := [Duelist, Initiator, Controller, Sentinel, Flex]

  /** Three in six draws give B, two give C, one gives A. */
  const GeneratedTiers: seq<PlayerGenerator.Tier> :=
    [PlayerGenerator.B, PlayerGenerator.B, PlayerGenerator.B, PlayerGenerator.C, PlayerGenerator.C, PlayerGenerator.A]

  /** The do-while that draws a pool name until it finds an unused one or
      every pool slot is accounted for. The loop ends only with
      probability 1, so it gets `fuel` redraws and reports `None` when
      they run out. */
  method PickName(pool: seq<string>, used: set<string>, rand: DrawStream, cursor: nat, fuel: nat)
    returns (name: Option<string>, next: nat)
    requires ValidStream(rand) && |pool| > 0
    ensures next > cursor
    ensures name.Some? ==> name.value in pool
    ensures name.Some? && |used| < |pool| ==> name.value !in used
  {
    var candidate := pool[DrawIndex(|pool|, rand(cursor))];
    next := cursor + 1;
    var budget := fuel;
    while candidate in used && |used| < |pool|
      invariant next > cursor && candidate in pool
      decreases budget
    {
      if budget == 0 {
        return None, next;
      }
      candidate := pool[DrawIndex(|pool|, rand(next))];
      next := next + 1;
      budget := budget - 1;
    }
    name := Some(candidate);
  }

  function NameSet(players: seq<Player>): set<string>
  {
    set p | p in players :: p.name
  }

  /** The `i`-th agent's name: an unused pool name while fewer names than
      the pool holds are in use; otherwise an unused pool name, or a used
      pool name with `i` appended. */
  predicate NamedFromPool(list: seq<Player>, i: nat, pool: seq<string>)
    requires i < |list|
  {
    var used := NameSet(list[..i]);
    && (|used| < |pool| ==> list[i].name in pool && list[i].name !in used)
    && ((list[i].name in pool && list[i].name !in used)
        || exists n :: n in pool && n in used && list[i].name == n + NatToString(i))
  }

  predicate NamesFollowPool(list: seq<Player>, pool: seq<string>)
  {
    forall i :: 0 <= i < |list| ==> NamedFromPool(list, i, pool)
  }

  /** A free agent: no contract, no team, aged 18 to 24, of the region. */
  predicate FreeAgentShape(p: Player, region: Region)
  {
    p.contract.None? && p.teamId.None? && 18 <= p.age <= 24 && p.region == region
  }

  lemma NamesFollowPoolAppend(list: seq<Player>, p: Player, pool: seq<string>)
    requires NamesFollowPool(list, pool)
    requires
      var used := NameSet(list);
      && (|used| < |pool| ==> p.name in pool && p.name !in used)
      && ((p.name in pool && p.name !in used)
          || exists n :: n in pool && n in used && p.name == n + NatToString(|list|))
    ensures NamesFollowPool(list + [p], pool)
  {
    var l := list + [p];
    forall i | 0 <= i < |l| ensures NamedFromPool(l, i, pool) {
      if i < |list| {
        assert l[..i] == list[..i] && l[i] == list[i];
        assert NamedFromPool(list, i, pool);
      } else {
        assert l[..i] == list;
      }
    }
  }

  predicate DistinctNames(pool: seq<string>)
  {
    forall i, j :: 0 <= i < j < |pool| ==> pool[i] != pool[j]
  }

  /** While the pool is not used up, every agent takes a fresh pool name:
      the first k names are k distinct pool names. */
  lemma {:induction false} FirstNamesFresh(list: seq<Player>, pool: seq<string>, k: nat)
    requires NamesFollowPool(list, pool) && k <= |list| && k <= |pool|
    ensures |NameSet(list[..k])| == k
    ensures forall n :: n in NameSet(list[..k]) ==> n in pool
  {
    if k > 0 {
      FirstNamesFresh(list, pool, k - 1);
      assert NamedFromPool(list, k - 1, pool);
      assert list[..k] == list[..k - 1] + [list[k - 1]];
      assert NameSet(list[..k]) == NameSet(list[..k - 1]) + {list[k - 1].name};
    }
  }

  lemma {:induction false} DistinctNamesCount(pool: seq<string>)
    requires DistinctNames(pool)
    ensures |set n | n in pool| == |pool|
  {
    if pool != [] {
      var init, last := pool[..|pool| - 1], pool[|pool| - 1];
      DistinctNamesCount(init);
      assert pool == init + [last];
      assert (set n | n in pool) == (set n | n in init) + {last};
      assert last !in init;
    }
  }

  lemma SubsetOfSameSize(a: set<string>, b: set<string>)
    requires a <= b && |a| == |b|
    ensures a == b
  {
    assert b == a + (b - a);
  }

  /** With a pool of distinct names, once as many agents as names exist
      every further agent is named by a used pool name with its index
      appended. */
  lemma PoolExhausted(list: seq<Player>, pool: seq<string>, i: nat)
    requires NamesFollowPool(list, pool) && DistinctNames(pool) && |pool| <= i < |list|
    ensures exists n :: n in pool && list[i].name == n + NatToString(i)
  {
    var k := |pool|;
    FirstNamesFresh(list, pool, k);
    DistinctNamesCount(pool);
    var first, all := NameSet(list[..k]), set n | n in pool;
    SubsetOfSameSize(first, all);
    var used := NameSet(list[..i]);
    forall n | n in pool ensures n in used {
      assert n in first;
      var p :| p in list[..k] && p.name == n;
      assert p in list[..i];
    }
    assert NamedFromPool(list, i, pool);
    assert !(list[i].name in pool && list[i].name !in used);
  }

  /** The generation loop: `count` agents in generation order. */
  method GenerateFreeAgentList(region: Region, count: nat, shuffles: PlayerGenerator.ShuffleSource,
                               rand: DrawStream, cursor: nat, fuel: nat)
    returns (agents: Option<seq<Player>>, next: nat)
    requires ValidStream(rand) && PlayerGenerator.ValidShuffleSource(shuffles)
    ensures next >= cursor
    ensures agents.Some? ==> |agents.value| == count
    ensures agents.Some? ==> forall p :: p in agents.value ==> FreeAgentShape(p, region)
    ensures agents.Some? ==> NamesFollowPool(agents.value, Tier2Names(region))
  {
    var pool := Tier2Names(region);
    var used: set<string> := {};
    var list: seq<Player> := [];
    next := cursor;
    for i := 0 to count
      invariant next >= cursor && |list| == i
      invariant used == NameSet(list)
      invariant forall p :: p in list ==> FreeAgentShape(p, region)
      invariant NamesFollowPool(list, pool)
    {
      var picked;
      picked, next := PickName(pool, used, rand, next, fuel);
      if picked.None? {
        return None, next;
      }
      var drawn := picked.value;
      var name := if drawn in used then drawn + NatToString(i) else drawn;
      used := used + {name};
      var player;
      player, next := NewFreeAgent(name, region, i, shuffles, rand, next);
      NamesFollowPoolAppend(list, player, pool);
      list := list + [player];
    }
    agents := Some(list);
  }

  /** One free agent under a given name: a random role, tier and age from
      18 to 24, then the contract and team cleared. */
  method NewFreeAgent(name: string, region: Region, i: nat, shuffles: PlayerGenerator.ShuffleSource,
                      rand: DrawStream, cursor: nat)
    returns (player: Player, next: nat)
    requires ValidStream(rand) && PlayerGenerator.ValidShuffleSource(shuffles)
    ensures next > cursor
    ensures player.name == name && FreeAgentShape(player, region)
  {
    var role := GeneratedRoles[DrawIndex(5, rand(cursor))];
    var tier := GeneratedTiers[DrawIndex(6, rand(cursor + 1))];
    var age := RandomAge(18, 24, rand(cursor + 2));
    player, next := PlayerGenerator.GeneratePlayer(name, role, region, tier, Some(age), shuffles(i, role), rand, cursor + 3);
    player := player.(contract := None, teamId := None);
  }

  /** The ranking value: the mean of the nine stats. */
  function MeanStat(p: Player): real
  {
    p.stats.Total() / 9.0
  }

  function MeanKeyed(players: seq<Player>): (r: seq<Sorting.Keyed<Player>>)
    ensures |r| == |players|
    ensures forall i :: 0 <= i < |r| ==> r[i] == Sorting.Keyed([MeanStat(players[i])], players[i])
  {
    if players == [] then []
    else [Sorting.Keyed([MeanStat(players[0])], players[0])] + MeanKeyed(players[1..])
  }

  predicate KeyedByMean(s: seq<Sorting.Keyed<Player>>)
  {
    forall x :: x in s ==> x.key == [MeanStat(x.item)]
  }

  lemma KeyedByMeanPermutation(a: seq<Sorting.Keyed<Player>>, b: seq<Sorting.Keyed<Player>>)
    requires KeyedByMean(a) && multiset(a) == multiset(b)
    ensures KeyedByMean(b)
  {
    forall x | x in b ensures x.key == [MeanStat(x.item)] {
      assert x in multiset(a);
    }
  }

  lemma SortedByMean(sorted: seq<Sorting.Keyed<Player>>)
    requires KeyedByMean(sorted) && Sorting.Sorted(sorted)
    ensures forall i, j :: 0 <= i < j < |sorted| ==> MeanStat(sorted[i].item) >= MeanStat(sorted[j].item)
  {
    forall i, j | 0 <= i < j < |sorted| ensures MeanStat(sorted[i].item) >= MeanStat(sorted[j].item) {
      assert sorted[i] in sorted && sorted[j] in sorted;
      Sorting.RanksAboveSingle(MeanStat(sorted[i].item), MeanStat(sorted[j].item));
    }
  }

  /** Best players first: a reordering with non-increasing mean stat. */
  function SortByMean(players: seq<Player>): (r: seq<Player>)
    ensures |r| == |players|
    ensures multiset(r) == multiset(players)
    ensures forall i, j :: 0 <= i < j < |r| ==> MeanStat(r[i]) >= MeanStat(r[j])
  {
    var keyed := MeanKeyed(players);
    assert Sorting.KeysOfLength(keyed, 1);
    var sorted := Sorting.SortDescending(keyed, 1);
    Sorting.SortItemsPermutation(keyed, 1);
    assert Sorting.Items(keyed) == players;
    KeyedByMeanPermutation(keyed, sorted);
    SortedByMean(sorted);
    Sorting.Items(sorted)
  }

  /** `count` free agents of the region, best mean stat first. */
  method GenerateTier2FreeAgents(region: Region, count: nat, shuffles: PlayerGenerator.ShuffleSource,
                                 rand: DrawStream, cursor: nat, fuel: nat)
    returns (agents: Option<seq<Player>>, next: nat)
    requires ValidStream(rand) && PlayerGenerator.ValidShuffleSource(shuffles)
    ensures next >= cursor
    ensures agents.Some? ==> |agents.value| == count
    ensures agents.Some? ==> forall p :: p in agents.value ==> FreeAgentShape(p, region)
    ensures agents.Some? ==> forall i, j :: 0 <= i < j < |agents.value| ==> MeanStat(agents.value[i]) >= MeanStat(agents.value[j])
  {
    var generated;
    generated, next := GenerateFreeAgentList(region, count, shuffles, rand, cursor, fuel);
    if generated.None? {
      return None, next;
    }
    var sorted := SortByMean(generated.value);
    forall p | p in sorted ensures FreeAgentShape(p, region) {
      assert p in multiset(generated.value);
    }
    agents := Some(sorted);
  }

  // ---------------------------------------------------------------------
  // Suggestions
  // ---------------------------------------------------------------------

  /** The roles suggestions are made for; Flex is never needed. */
  const ConcreteRoles: seq<Role> := [Duelist, Initiator, Controller, Sentinel]

  function RoleCount(roster: seq<Player>, role: Role): (n: nat)
    ensures n <= |roster|
    ensures n == 0 <==> forall p :: p in roster ==> p.role != role
  {
    if roster == [] then 0
    else (if roster[0].role == role then 1 else 0) + RoleCount(roster[1..], role)
  }

  /** How often a role is pushed onto the needed list: twice when the
      roster has none, once when it has one. */
  function NeedWeight(roster: seq<Player>, role: Role): nat
  {
    if role == Flex then 0
    else if RoleCount(roster, role) == 0 then 2
    else if RoleCount(roster, role) == 1 then 1
    else 0
  }

  /** The role itself when the roster needs it, nothing otherwise. */
  function IfNeeded(roster: seq<Player>, role: Role): (r: seq<Role>)
    ensures forall x :: x in r <==> x == role && NeedWeight(roster, role) > 0
  {
    if NeedWeight(roster, role) > 0 then [role] else []
  }

  /** The needed roles, each once, in the order the code visits them. */
  function NeededRoles(roster: seq<Player>): (needed: seq<Role>)
    ensures forall r :: r in needed <==> r != Flex && RoleCount(roster, r) <= 1
  {
    var d, i, c, s := IfNeeded(roster, Duelist), IfNeeded(roster, Initiator), IfNeeded(roster, Controller), IfNeeded(roster, Sentinel);
    assert forall r :: r in d + i + c + s <==> r in d || r in i || r in c || r in s;
    d + i + c + s
  }

  /** The needed list the code builds, described by how often each role
      occurs in it. */
  predicate IsNeededList(needed: seq<Role>, roster: seq<Player>)
  {
    forall r :: multiset(needed)[r] == NeedWeight(roster, r)
  }

  /** A role is needed iff it is concrete and held by at most one player. */
  lemma NeededIff(needed: seq<Role>, roster: seq<Player>, r: Role)
    requires IsNeededList(needed, roster)
    ensures r in needed <==> r != Flex && RoleCount(roster, r) <= 1
  {
    assert r in needed <==> multiset(needed)[r] > 0;
  }

  /** The free agents whose role is among the needed ones, in order. */
  function WithRoles(list: seq<Player>, roles: seq<Role>): (r: seq<Player>)
    ensures |r| <= |list|
    ensures forall p :: p in r <==> p in list && p.role in roles
  {
    if list == [] then []
    else (if list[0].role in roles then [list[0]] else []) + WithRoles(list[1..], roles)
  }

  /** The free agents not already in `excluded`, in order. */
  function Without(list: seq<Player>, excluded: seq<Player>): (r: seq<Player>)
    ensures |r| <= |list|
    ensures forall p :: p in r <==> p in list && p !in excluded
  {
    if list == [] then []
    else (if list[0] !in excluded then [list[0]] else []) + Without(list[1..], excluded)
  }

  /** The prefix up to `end`, where a negative end counts from the back. */
  function SliceTo<T>(list: seq<T>, end: int): (r: seq<T>)
    ensures end >= 0 ==> |r| == if end < |list| then end else |list|
    ensures |r| <= |list| && r == list[..|r|]
  {
    if end >= |list| then list
    else if end >= 0 then list[..end]
    else if |list| + end > 0 then list[..|list| + end]
    else []
  }

  /** Agents whose role is outside `roles`, in input order. */
  function WithoutRoles(list: seq<Player>, roles: seq<Role>): (r: seq<Player>)
    ensures forall p :: p in r <==> p in list && p.role !in roles
  {
    if list == [] then []
    else (if list[0].role !in roles then [list[0]] else []) + WithoutRoles(list[1..], roles)
  }

  /** Once every needed-role agent is suggested, dropping the suggested
      ones leaves the other-role agents. */
  lemma {:induction false} WithoutAllNeeded(list: seq<Player>, roles: seq<Role>, suggested: seq<Player>)
    requires forall p :: p in list ==> (p in suggested <==> p.role in roles)
    ensures Without(list, suggested) == WithoutRoles(list, roles)
  {
    if list != [] {
      assert forall p :: p in list[1..] ==> p in list;
      WithoutAllNeeded(list[1..], roles, suggested);
    }
  }

  lemma {:induction false} FilterLengths(list: seq<Player>, roles: seq<Role>)
    ensures |WithRoles(list, roles)| + |WithoutRoles(list, roles)| == |list|
  {
    if list != [] {
      FilterLengths(list[1..], roles);
    }
  }

  predicate NoRepeats(list: seq<Player>)
  {
    forall i, j :: 0 <= i < j < |list| ==> list[i] != list[j]
  }

  lemma {:induction false} WithRolesNoRepeats(list: seq<Player>, roles: seq<Role>, keep: bool)
    requires NoRepeats(list)
    ensures NoRepeats(if keep then WithRoles(list, roles) else WithoutRoles(list, roles))
  {
    if list != [] {
      var rest := list[1..];
      assert NoRepeats(rest);
      WithRolesNoRepeats(rest, roles, keep);
      assert list[0] !in rest;
    }
  }

  lemma SliceNoRepeats(list: seq<Player>, end: int)
    requires NoRepeats(list)
    ensures NoRepeats(SliceTo(list, end))
  {
    var r := SliceTo(list, end);
    assert r == list[..|r|];
  }

  /** The suggestions: needed-role agents first and in input order, then,
      if there are fewer than `maxSuggestions`, other agents in input
      order; nothing outside the input and, for an input without repeats,
      nothing twice. */
  predicate SuggestionsFor(suggested: seq<Player>, freeAgents: seq<Player>, needed: seq<Role>, maxSuggestions: int)
  {
    var front := SliceTo(WithRoles(freeAgents, needed), maxSuggestions);
    && (forall p :: p in suggested ==> p in freeAgents)
    && (maxSuggestions >= 0 ==>
          |suggested| == if maxSuggestions < |freeAgents| then maxSuggestions else |freeAgents|)
    && |front| <= |suggested|
    && suggested[..|front|] == front
    && suggested[|front|..] == (if |front| < maxSuggestions then SliceTo(WithoutRoles(freeAgents, needed), maxSuggestions - |front|) else [])
    && (NoRepeats(freeAgents) ==> NoRepeats(suggested))
  }

  /** The case where the needed-role agents fill the suggestions. */
  lemma NoTopUp(freeAgents: seq<Player>, needed: seq<Role>, maxSuggestions: int)
    requires |SliceTo(WithRoles(freeAgents, needed), maxSuggestions)| >= maxSuggestions
    ensures SuggestionsFor(SliceTo(WithRoles(freeAgents, needed), maxSuggestions), freeAgents, needed, maxSuggestions)
  {
    var front := SliceTo(WithRoles(freeAgents, needed), maxSuggestions);
    assert front[|front|..] == [];
    assert front[..|front|] == front;
    if NoRepeats(freeAgents) {
      WithRolesNoRepeats(freeAgents, needed, true);
      SliceNoRepeats(WithRoles(freeAgents, needed), maxSuggestions);
    }
    if maxSuggestions >= 0 {
      FilterLengths(freeAgents, needed);
    }
  }

  /** The case where other agents top the suggestions up. */
  lemma TopUp(freeAgents: seq<Player>, needed: seq<Role>, maxSuggestions: int,
              front: seq<Player>, remaining: seq<Player>)
    requires front == SliceTo(WithRoles(freeAgents, needed), maxSuggestions)
    requires |front| < maxSuggestions
    requires remaining == SliceTo(Without(freeAgents, front), maxSuggestions - |front|)
    ensures SuggestionsFor(front + remaining, freeAgents, needed, maxSuggestions)
  {
    var all := WithRoles(freeAgents, needed);
    assert front == all;
    WithoutAllNeeded(freeAgents, needed, front);
    FilterLengths(freeAgents, needed);
    var rest := WithoutRoles(freeAgents, needed);
    assert |remaining| == if maxSuggestions - |front| < |rest| then maxSuggestions - |front| else |rest|;
    var r := front + remaining;
    assert |r| == if maxSuggestions < |freeAgents| then maxSuggestions else |freeAgents|;
    assert r[..|front|] == front && r[|front|..] == remaining;
    forall p | p in r ensures p in freeAgents {
      if p in remaining {
        assert remaining == rest[..|remaining|];
        assert p in rest;
      }
    }
    if NoRepeats(freeAgents) {
      WithRolesNoRepeats(freeAgents, needed, true);
      WithRolesNoRepeats(freeAgents, needed, false);
      SliceNoRepeats(WithoutRoles(freeAgents, needed), maxSuggestions - |front|);
      AppendNoRepeats(front, remaining);
    }
  }

  method GetSuggestedFreeAgents(roster: seq<Player>, freeAgents: seq<Player>, maxSuggestions: int)
    returns (suggested: seq<Player>)
    ensures forall p :: p in suggested ==> p in freeAgents
    ensures maxSuggestions >= 0 ==>
      |suggested| == if maxSuggestions < |freeAgents| then maxSuggestions else |freeAgents|
    ensures
      var front := SliceTo(WithRoles(freeAgents, NeededRoles(roster)), maxSuggestions);
      && |front| <= |suggested| && suggested[..|front|] == front
      && suggested[|front|..] == if |front| < maxSuggestions
                                 then SliceTo(WithoutRoles(freeAgents, NeededRoles(roster)), maxSuggestions - |front|)
                                 else []
    ensures NoRepeats(freeAgents) ==> NoRepeats(suggested)
  {
    var roleCount := CountRoles(roster);
    var neededRoles := ListNeededRoles(roster, roleCount);
    ghost var needed := NeededRoles(roster);
    SameMembers(neededRoles, needed, roster);
    WithRolesMembers(freeAgents, neededRoles, needed);
    suggested := SliceTo(WithRoles(freeAgents, neededRoles), maxSuggestions);
    if |suggested| < maxSuggestions {
      var remaining := SliceTo(Without(freeAgents, suggested), maxSuggestions - |suggested|);
      TopUp(freeAgents, needed, maxSuggestions, suggested, remaining);
      suggested := suggested + remaining;
    } else {
      NoTopUp(freeAgents, needed, maxSuggestions);
    }
  }

  /** The `roleCount` tally over the roster. */
  method CountRoles(roster: seq<Player>) returns (roleCount: map<Role, nat>)
    ensures forall r :: r in roleCount && roleCount[r] == RoleCount(roster, r)
  {
    roleCount := map[Duelist := 0, Initiator := 0, Controller := 0, Sentinel := 0, Flex := 0];
    CountStart(roster, roleCount);
    for i := 0 to |roster|
      invariant forall r :: r in roleCount && roleCount[r] == RoleCount(roster[..i], r)
    {
      CountStep(roster, i, roleCount);
      roleCount := roleCount[roster[i].role := roleCount[roster[i].role] + 1];
    }
    assert roster[..|roster|] == roster;
  }

  /** The `neededRoles` list: each concrete role pushed twice when
      missing, once when held by one player. */
  method ListNeededRoles(roster: seq<Player>, roleCount: map<Role, nat>) returns (neededRoles: seq<Role>)
    requires forall r :: r in roleCount && roleCount[r] == RoleCount(roster, r)
    ensures IsNeededListFor(neededRoles, roster, ConcreteRoles)
  {
    neededRoles := [];
    for k := 0 to |ConcreteRoles|
      invariant IsNeededListFor(neededRoles, roster, ConcreteRoles[..k])
    {
      var role := ConcreteRoles[k];
      var before := neededRoles;
      ConcreteStep(k);
      if roleCount[role] == 0 {
        neededRoles := neededRoles + [role, role];
      } else if roleCount[role] == 1 {
        neededRoles := neededRoles + [role];
      }
      NeededListStep(before, neededRoles, roster, ConcreteRoles[..k], role);
    }
    assert ConcreteRoles[..4] == ConcreteRoles;
  }

  /** Every role starts at zero. */
  lemma CountStart(roster: seq<Player>, roleCount: map<Role, nat>)
    requires roleCount == map[Duelist := 0, Initiator := 0, Controller := 0, Sentinel := 0, Flex := 0]
    ensures forall r :: r in roleCount && roleCount[r] == RoleCount(roster[..0], r)
  {
    assert roster[..0] == [];
    forall r ensures r in roleCount && roleCount[r] == RoleCount(roster[..0], r) {
      match r
      case Duelist => case Initiator => case Controller => case Sentinel => case Flex =>
    }
  }

  /** Counting one more roster entry bumps its role's count. */
  lemma CountStep(roster: seq<Player>, i: nat, roleCount: map<Role, nat>)
    requires i < |roster|
    requires forall r :: r in roleCount && roleCount[r] == RoleCount(roster[..i], r)
    ensures var bumped := roleCount[roster[i].role := roleCount[roster[i].role] + 1];
      forall r :: r in bumped && bumped[r] == RoleCount(roster[..i + 1], r)
  {
    assert roster[..i + 1] == roster[..i] + [roster[i]];
    RoleCountAppend(roster[..i], roster[i]);
  }

  lemma {:induction false} RoleCountAppend(roster: seq<Player>, p: Player)
    ensures forall r :: RoleCount(roster + [p], r) == RoleCount(roster, r) + (if p.role == r then 1 else 0)
  {
    if roster != [] {
      assert (roster + [p])[1..] == roster[1..] + [p];
      RoleCountAppend(roster[1..], p);
    } else {
      assert ([p])[1..] == [];
    }
  }

  /** Each concrete role is visited once, after the ones before it. */
  lemma ConcreteStep(k: nat)
    requires k < |ConcreteRoles|
    ensures ConcreteRoles[k] != Flex && ConcreteRoles[k] !in ConcreteRoles[..k]
    ensures ConcreteRoles[..k + 1] == ConcreteRoles[..k] + [ConcreteRoles[k]]
  {
  }

  /** The needed list built over some of the concrete roles. */
  predicate IsNeededListFor(needed: seq<Role>, roster: seq<Player>, seen: seq<Role>)
  {
    forall r :: multiset(needed)[r] == if r in seen then NeedWeight(roster, r) else 0
  }

  lemma NeededListStep(before: seq<Role>, needed: seq<Role>, roster: seq<Player>, seen: seq<Role>, role: Role)
    requires role != Flex && role !in seen && IsNeededListFor(before, roster, seen)
    requires needed == before + (if RoleCount(roster, role) == 0 then [role, role]
                                 else if RoleCount(roster, role) == 1 then [role] else [])
    ensures IsNeededListFor(needed, roster, seen + [role])
  {
  }

  lemma SameMembers(neededRoles: seq<Role>, needed: seq<Role>, roster: seq<Player>)
    requires IsNeededListFor(neededRoles, roster, ConcreteRoles)
    requires needed == NeededRoles(roster)
    ensures forall r :: r in neededRoles <==> r in needed
  {
    forall r ensures r in neededRoles <==> r in needed {
      assert r in neededRoles <==> multiset(neededRoles)[r] > 0;
      if r != Flex {
        assert r in ConcreteRoles;
      }
    }
  }

  lemma {:induction false} WithRolesMembers(list: seq<Player>, a: seq<Role>, b: seq<Role>)
    requires forall r :: r in a <==> r in b
    ensures WithRoles(list, a) == WithRoles(list, b)
  {
    if list != [] {
      WithRolesMembers(list[1..], a, b);
    }
  }

  lemma AppendNoRepeats(a: seq<Player>, b: seq<Player>)
    requires NoRepeats(a) && NoRepeats(b)
    requires forall p :: p in b ==> p !in a
    ensures NoRepeats(a + b)
  {
    var c := a + b;
    forall i, j | 0 <= i < j < |c| ensures c[i] != c[j] {
      if i < |a| && j >= |a| {
        assert c[j] == b[j - |a|] && c[j] in b;
        assert c[i] == a[i] && c[i] in a;
      } else if i >= |a| {
        assert c[i] == b[i - |a|] && c[j] == b[j - |a|];
      }
    }
  }
}
