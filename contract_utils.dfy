/** Contract arithmetic (src/utils/contractUtils.ts): the salary scale by
    overall rating, buyouts, offers, affordability, team payroll, the
    negotiation rule, and contract ageing at the end of a season. */
module ContractUtils {
  import opened Types

  // ---------------------------------------------------------------------
  // Rating and salary scale
  // ---------------------------------------------------------------------

  /** Overall rating: the rounded mean of the nine stats. */
  function OverallRating(p: Player): int
  {
    Round(p.stats.Total() / 9.0)
  }

  /** A rating never leaves an integer interval that holds every stat. */
  lemma OverallRatingWithin(p: Player, lo: int, hi: int)
    requires p.stats.Within(lo as real, hi as real)
    ensures lo <= OverallRating(p) <= hi
  {
    var s := p.stats;
    assert lo as real <= s.Get(Mechanics) <= hi as real && lo as real <= s.Get(Igl) <= hi as real;
    assert lo as real <= s.Get(Mental) <= hi as real && lo as real <= s.Get(Clutch) <= hi as real;
    assert lo as real <= s.Get(Vibes) <= hi as real && lo as real <= s.Get(Lurking) <= hi as real;
    assert lo as real <= s.Get(Entry) <= hi as real && lo as real <= s.Get(Support) <= hi as real;
    assert lo as real <= s.Get(Stamina) <= hi as real;
    RoundWithin(s.Total() / 9.0, lo, hi);
  }

  /** The salary tier of a rating. */
  function SalaryForRating(rating: int): int
  {
    if rating >= 90 then 1500000
    else if rating >= 85 then 1200000
    else if rating >= 80 then 900000
    else if rating >= 75 then 700000
    else if rating >= 70 then 500000
    else if rating >= 65 then 350000
    else if rating >= 60 then 250000
    else 200000
  }

  function SuggestedSalary(p: Player): int
  {
    SalaryForRating(OverallRating(p))
  }

  /** The salary scale is a non-decreasing step function from 200000 to
      1500000, reaching the top from a rating of 90. */
  lemma SalaryScaleMonotone(r1: int, r2: int)
    requires r1 <= r2
    ensures SalaryForRating(r1) <= SalaryForRating(r2)
    ensures 200000 <= SalaryForRating(r1) <= 1500000
    ensures SalaryForRating(r1) == 1500000 <==> r1 >= 90
    ensures SalaryForRating(r1) == 200000 <==> r1 < 60
  {
  }

  // ---------------------------------------------------------------------
  // Buyouts and offers
  // ---------------------------------------------------------------------

  /** 75% of the remaining contract value, rounded. */
  function BuyoutClause(salary: int, yearsRemaining: int): int
  {
    Round((salary * yearsRemaining) as real * 0.75)
  }

  /** The buyout is at most the remaining value, is non-negative for a
      non-negative salary and term, and grows with the salary. */
  lemma BuyoutClauseBounds(salary: int, years: int, salary': int)
    requires salary >= 0 && years >= 0 && salary <= salary'
    ensures 0 <= BuyoutClause(salary, years) <= salary * years
    ensures BuyoutClause(salary, years) <= BuyoutClause(salary', years)
  {
    var v, v' := salary * years, salary' * years;
    assert 0 <= v <= v' by {
      assert v' - v == (salary' - salary) * years;
    }
    RoundWithin(v as real * 0.75, 0, v);
    assert (v as real * 0.75 + 0.5).Floor <= (v' as real * 0.75 + 0.5).Floor;
  }

  /** An offer at the suggested salary for the given term. */
  function GenerateContractOffer(p: Player, years: int): (c: Contract)
    ensures c.salary == SuggestedSalary(p)
    ensures c.yearsRemaining == years && c.totalYears == Some(years)
    ensures c.buyoutClause == Some(BuyoutClause(c.salary, years))
  {
    Contract(SuggestedSalary(p), years, Some(years), Some(BuyoutClause(SuggestedSalary(p), years)))
  }

  // ---------------------------------------------------------------------
  // Payroll
  // ---------------------------------------------------------------------

  /** A player's salary, 0 without a contract. */
  function SalaryOf(p: Player): int
  {
    match p.contract
    case None => 0
    case Some(c) => c.salary
  }

  /** Sum of the roster's salaries, players without a contract counting 0. */
  function TeamSalary(roster: seq<Player>): int
  {
    if roster == [] then 0 else TeamSalary(roster[..|roster| - 1]) + SalaryOf(roster[|roster| - 1])
  }

  lemma {:induction false} TeamSalaryAppend(a: seq<Player>, b: seq<Player>)
    ensures TeamSalary(a + b) == TeamSalary(a) + TeamSalary(b)
    decreases |b|
  {
    if b != [] {
      assert (a + b)[..|a + b| - 1] == a + b[..|b| - 1];
      assert (a + b)[|a + b| - 1] == b[|b| - 1];
      TeamSalaryAppend(a, b[..|b| - 1]);
    } else {
      assert a + b == a;
    }
  }

  /** Payroll is additive over the roster, and signing a contractless player
      leaves it unchanged. */
  lemma TeamSalarySign(roster: seq<Player>, p: Player)
    ensures TeamSalary(roster + [p]) == TeamSalary(roster) + SalaryOf(p)
    ensures p.contract == None ==> TeamSalary(roster + [p]) == TeamSalary(roster)
  {
    TeamSalaryAppend(roster, [p]);
    assert [p][..0] == [];
  }

  function RemainingBudget(teamBudget: int, roster: seq<Player>): int
  {
    teamBudget - TeamSalary(roster)
  }

  function CanAffordContract(teamBudget: int, currentSalaries: int, newContract: Contract): bool
  {
    currentSalaries + newContract.salary <= teamBudget
  }

  /** Against the roster's payroll, a contract is affordable exactly when
      its salary fits in the remaining budget. */
  lemma AffordableIffFitsBudget(teamBudget: int, roster: seq<Player>, c: Contract)
    ensures CanAffordContract(teamBudget, TeamSalary(roster), c) <==> c.salary <= RemainingBudget(teamBudget, roster)
    ensures CanAffordContract(teamBudget, TeamSalary(roster), c) ==>
      RemainingBudget(teamBudget, roster) - c.salary >= 0
  {
  }

  // ---------------------------------------------------------------------
  // Negotiation
  // ---------------------------------------------------------------------

  /** Accepted, or refused with a counter-offer. */
  datatype NegotiationResult = NegotiationResult(accepted: bool, counterOffer: Option<Contract>)

  /** The lowest salary the player considers: the suggested salary, 10%
      lower for players aged 21 or under, scaled by reputation / 200. */
  function MinimumAcceptable(p: Player, teamReputation: real): real
  {
    var ageModifier := if p.age <= 21 then 0.9 else 1.0;
    var reputationModifier := 1.0 - teamReputation / 200.0;
    SuggestedSalary(p) as real * ageModifier * (1.0 - reputationModifier)
  }

  function NegotiateContract(p: Player, offer: Contract, teamReputation: real): (r: NegotiationResult)
    ensures r.accepted <==> offer.salary as real >= MinimumAcceptable(p, teamReputation) * 0.9
    ensures r.accepted <==> r.counterOffer == None
  {
    var minimumAcceptable := MinimumAcceptable(p, teamReputation);
    if offer.salary as real >= minimumAcceptable * 0.9 then NegotiationResult(true, None)
    else
      var counterSalary := Round(minimumAcceptable * 1.1);
      NegotiationResult(false, Some(offer.(
        salary := counterSalary,
        buyoutClause := Some(BuyoutClause(counterSalary, offer.yearsRemaining)))))
  }

  /** The minimum the player accepts is the suggested salary times the age
      modifier times reputation / 200. */
  lemma MinimumAcceptableIsReputationShare(p: Player, teamReputation: real)
    ensures MinimumAcceptable(p, teamReputation) ==
      SuggestedSalary(p) as real * (if p.age <= 21 then 0.9 else 1.0) * (teamReputation / 200.0)
  {
  }

  /** A refused offer comes back with the same term, a salary 10% over the
      minimum (rounded) and the buyout recomputed for it; for a reputation of
      at least 1, the counter-offer pays more and is itself accepted. */
  lemma CounterOfferShape(p: Player, offer: Contract, teamReputation: real)
    requires teamReputation >= 1.0
    requires !NegotiateContract(p, offer, teamReputation).accepted
    ensures var c := NegotiateContract(p, offer, teamReputation).counterOffer.value;
      && c.yearsRemaining == offer.yearsRemaining && c.totalYears == offer.totalYears
      && c.salary == Round(MinimumAcceptable(p, teamReputation) * 1.1)
      && c.buyoutClause == Some(BuyoutClause(c.salary, offer.yearsRemaining))
      && c.salary > offer.salary
      && NegotiateContract(p, c, teamReputation).accepted
  {
    var m := MinimumAcceptable(p, teamReputation);
    MinimumAcceptableIsReputationShare(p, teamReputation);
    assert m >= 900.0 by {
      SalaryScaleMonotone(OverallRating(p), OverallRating(p));
      var a := if p.age <= 21 then 0.9 else 1.0;
      var base := SuggestedSalary(p) as real * a;
      assert base >= 180000.0;
      assert teamReputation / 200.0 >= 1.0 / 200.0;
      assert m == base * (teamReputation / 200.0);
      assert base * (teamReputation / 200.0) >= base * (1.0 / 200.0);
    }
    var c := Round(m * 1.1);
    assert c as real > m * 1.1 - 0.5;
    assert offer.salary as real < m * 0.9;
    assert c as real >= m * 0.9;
  }

  // ---------------------------------------------------------------------
  // Contract ageing
  // ---------------------------------------------------------------------

  /** One season later: a year less on every contract, never below 0. */
  function AdvanceContract(p: Player): Player
  {
    match p.contract
    case None => p
    case Some(c) =>
      p.(contract := Some(c.(yearsRemaining := if c.yearsRemaining - 1 >= 0 then c.yearsRemaining - 1 else 0)))
  }

  function AdvanceContracts(roster: seq<Player>): (r: seq<Player>)
    ensures |r| == |roster|
    ensures forall i :: 0 <= i < |roster| ==> r[i] == AdvanceContract(roster[i])
  {
    seq(|roster|, i requires 0 <= i < |roster| => AdvanceContract(roster[i]))
  }

  /** Ageing keeps the roster's players and order, touches nothing but the
      years left, and leaves them one less, floored at 0. */
  lemma AdvanceContractsEffect(roster: seq<Player>, i: int)
    requires 0 <= i < |roster|
    ensures var q := AdvanceContracts(roster)[i];
      && q.(contract := roster[i].contract) == roster[i]
      && (roster[i].contract == None <==> q.contract == None)
      && (roster[i].contract.Some? ==>
          && q.contract.value.(yearsRemaining := roster[i].contract.value.yearsRemaining) == roster[i].contract.value
          && q.contract.value.yearsRemaining == MaxInt(0, roster[i].contract.value.yearsRemaining - 1))
  {
  }

  function MaxInt(a: int, b: int): int { if a >= b then a else b }

  /** Contracts with one year left are expired a season later, and expired
      contracts stay expired. */
  lemma AdvanceExpires(roster: seq<Player>, i: int)
    requires 0 <= i < |roster| && roster[i].contract.Some?
    ensures roster[i].contract.value.yearsRemaining <= 1 ==> IsExpired(AdvanceContracts(roster)[i])
    ensures AdvanceContracts(roster)[i].contract.value.yearsRemaining >= 0
  {
  }

  /** Contract still running with at most `threshold` years left. */
  predicate IsExpiring(p: Player, threshold: int)
  {
    p.contract.Some? && p.contract.value.yearsRemaining <= threshold && p.contract.value.yearsRemaining > 0
  }

  predicate IsExpired(p: Player)
  {
    p.contract.Some? && p.contract.value.yearsRemaining <= 0
  }

  /** `a` keeps some of the elements of `b`, in their order. */
  predicate SubList<T(==)>(a: seq<T>, b: seq<T>)
  {
    if a == [] then true
    else if b == [] then false
    else if a[0] == b[0] then SubList(a[1..], b[1..])
    else SubList(a, b[1..])
  }

  function ExpiringContracts(roster: seq<Player>, threshold: int): (r: seq<Player>)
    ensures forall p :: p in r <==> p in roster && IsExpiring(p, threshold)
    ensures SubList(r, roster)
  {
    if roster == [] then []
    else if IsExpiring(roster[0], threshold) then [roster[0]] + ExpiringContracts(roster[1..], threshold)
    else ExpiringContracts(roster[1..], threshold)
  }

  function ExpiredContracts(roster: seq<Player>): (r: seq<Player>)
    ensures forall p :: p in r <==> p in roster && IsExpired(p)
    ensures SubList(r, roster)
  {
    if roster == [] then []
    else if IsExpired(roster[0]) then [roster[0]] + ExpiredContracts(roster[1..])
    else ExpiredContracts(roster[1..])
  }

  /** No player is both expiring and expired, and together the two lists
      are no longer than the roster. */
  lemma {:induction false} ExpiringExpiredDisjoint(roster: seq<Player>, threshold: int)
    ensures forall p :: !(p in ExpiringContracts(roster, threshold) && p in ExpiredContracts(roster))
    ensures |ExpiringContracts(roster, threshold)| + |ExpiredContracts(roster)| <= |roster|
  {
    if roster != [] {
      ExpiringExpiredDisjoint(roster[1..], threshold);
    }
  }
}
