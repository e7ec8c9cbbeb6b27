# rostermania in Dafny

rostermania is a Valorant esports manager. The player signs a franchise team, manages its roster, contracts and training, arranges scrims, and plays a league season through a match simulator. This project models the game's rule engines and proves properties about them:

- **Match engine** (`match_round.dfy`, `match_map.dfy`). It covers:
  - side-weighted team strength;
  - the weighted choice of a player by one stat;
  - one kill engagement;
  - the round state machine: plant, detonation, defuse, time expiry and eliminations;
  - the trade pass;
  - per-player performance records and how a round is credited to them;
  - the map loop, with the side switch at round 13, overtime and the round-30 cap;
  - end-of-map statistics (K/D, ACS, ADR, KAST, econ rating);
  - the best-of-three series.
- **Contract arithmetic** (`contract_utils.dfy`). It covers:
  - the salary scale by overall rating;
  - buyouts, offers and affordability;
  - team payroll;
  - the negotiation rule;
  - contract ageing.
- **Player development** (`player_development.dfy`). It covers potential, the age curve, yearly progression and decline, training by focus, agent-pool training, and morale and form.
- **Scrims** (`scrim_simulator.dfy`). It covers:
  - choosing practice partners;
  - team averages and session quality;
  - composition quality;
  - proficiency, stat and synergy gains;
  - feedback.
- **Teams and schedule** (`team_utils.dfy`). It covers:
  - building a full team from the static tables;
  - the memoising team cache;
  - the round-robin schedule, with its Fisher–Yates shuffle and week bucketing.
- **Game state** (`game_state.dfy`). The provider's state is a class. Its methods are the transitions: sign, release, move to reserve, move to active, match result, week advance and reset. Each transition is proved against a pure step function and, for rosters with distinct player ids, keeps the roster limits: 8 players, 5 active, 3 reserves.
- **League table and dashboard record** (`standings.dfy`, `dashboard.dfy`). The table covers standings filled from decided matches, sorting by four keys, ranks and the playoff cut. The dashboard covers its own wins, losses and differentials, and agrees with the table.
- **Free agents and player generation** (`free_agent_generator.dfy`, `player_generator.dfy`). They cover:
  - tier-2 free agents;
  - role-based suggestions;
  - tiered stats;
  - agent pools;
  - id slugs;
  - team tiers;
  - hand-made players.
- Shared shapes and helpers (`types.dfy`) and the comparator sort the game uses (`sorting.dfy`).

Modelling conventions:

- **Random draws.** Every `Math.random()` is one draw of an injected stream `rand: nat -> real`, with every draw in [0, 1). A cursor is threaded through the calls. There are two exceptions. First, a kill reserves its two weighted-choice draws even when a side's weights sum to 0 (listed under Left out). Second, the random orders produced by `sort(() => Math.random() - 0.5)` are supplied as permutations and take no stream position, although the code's comparator calls do consume `Math.random()`. Every draw after such a shuffle (in `src/utils/playerDevelopment.ts:185` and `:206`, and in player generation) therefore sits earlier in the stream than in the code; the values drawn are still arbitrary draws in [0, 1).
- **Numbers.** JavaScript numbers are `real`. Counters are `int`. `Math.round(x)` is `floor(x + 1/2)`.
- **State.** Code that updates state step by step is imperative Dafny: the round and map loops over arrays of performance records, the schedule's in-place shuffle, the team cache, and the game-state class. Expression-level code is functions.

Where a code comment and the code disagree about a range, the model follows the code: the objective proficiency gain of a scrim ranges over 0 to 6, not "0-5" as its comment says (`ScrimSimulator.ObjectiveGainReachesSix`).

Where the code evidently departs from what it sets out to do, the model holds both readings (see Findings). The code as written is modelled by separate members, with the input that shows the difference. The intended rule is what the rest of the model uses:

- KAST rounds are counted, one per round that had a kill, assist, survival or trade. The code sets the player's entry to 1 instead.
- A player is credited one multi-kill tier per round. The code credits the tier once per kill event.
- A single role's agent pool has one base proficiency, so its first agent is the best. The code draws a new base for every agent.

## Model

| member | source | states |
|---|---|---|
| ContractUtils.SalaryScaleMonotone | src/utils/contractUtils.ts:4-16 | the salary tier is non-decreasing in the rating, always between 200000 and 1500000, the top tier exactly from rating 90 and the bottom tier exactly below 60 |
| ContractUtils.OverallRatingWithin | src/utils/contractUtils.ts:19-23 | the overall rating, the rounded mean of the nine stats, lies within any integer bounds that every stat lies within |
| ContractUtils.BuyoutClauseBounds | src/utils/contractUtils.ts:26-30 | the buyout, round(0.75 · salary · years), lies between 0 and salary · years and grows with the salary |
| ContractUtils.GenerateContractOffer | src/utils/contractUtils.ts:33-44 | an offer pays the suggested salary for `years` remaining and total years, with the buyout of that salary and term |
| ContractUtils.TeamSalaryAppend | src/utils/contractUtils.ts:57-61 | the payroll of two rosters joined is the sum of their payrolls |
| ContractUtils.TeamSalarySign | src/utils/contractUtils.ts:57-61 | adding a player adds that player's salary to the payroll; a player without a contract adds 0 |
| ContractUtils.AffordableIffFitsBudget | src/utils/contractUtils.ts:47-54 | against the roster's payroll, a contract is affordable exactly when its salary fits in the remaining budget (budget minus payroll), which then stays non-negative |
| ContractUtils.NegotiateContract | src/utils/contractUtils.ts:94-128 | an offer is accepted exactly when its salary is at least 0.9 times the minimum acceptable salary, and a counter-offer comes back exactly when it is refused |
| ContractUtils.MinimumAcceptableIsReputationShare | src/utils/contractUtils.ts:99-108 | the minimum acceptable salary is the suggested salary times the age modifier (0.9 up to age 21, else 1) times reputation / 200 |
| ContractUtils.CounterOfferShape | src/utils/contractUtils.ts:115-127 | a counter-offer keeps the offer's term, asks round(1.1 · minimum) with the buyout recomputed for it, and for a reputation of at least 1 pays more than the refused offer and is itself accepted |
| ContractUtils.AdvanceContractsEffect | src/utils/contractUtils.ts:131-143 | ageing keeps every player and the order, changes only the years remaining, and sets them to max(0, years - 1); players without a contract are unchanged |
| ContractUtils.AdvanceExpires | src/utils/contractUtils.ts:131-143 | a contract with at most one year left is expired after ageing, and years remaining never go negative |
| ContractUtils.ExpiringContracts | src/utils/contractUtils.ts:146-151 | a player is listed exactly when on the roster with 0 < years remaining <= threshold, and the list is a sub-list of the roster |
| ContractUtils.ExpiredContracts | src/utils/contractUtils.ts:154-159 | a player is listed exactly when on the roster with years remaining <= 0, and the list is a sub-list of the roster |
| ContractUtils.ExpiringExpiredDisjoint | src/utils/contractUtils.ts:146-159 | no player is both expiring and expired, so the two lists together are no longer than the roster |
| PlayerDevelopment.CalculatePotential | src/utils/playerDevelopment.ts:10-23 | up to age 26 the potential is at most 100 and at least min(100, rating); from 27 it is the rating itself |
| PlayerDevelopment.DevelopmentRateNonIncreasing | src/utils/playerDevelopment.ts:26-32 | the development rate never grows with age and is one of 1.5, 1.2, 0.8, 0.5, 0.2 |
| PlayerDevelopment.ImproveStats | src/utils/playerDevelopment.ts:66-82 | every stat below min(100, potential) grows by at most 3 · growth rate and never past that cap; a stat at or above the cap is untouched; no stat is lowered |
| PlayerDevelopment.GrownValue | src/utils/playerDevelopment.ts:73-77 | a stat below the cap grows by at most 3 · growth rate and never past the cap |
| PlayerDevelopment.DeclinedValue | src/utils/playerDevelopment.ts:96-97 | a declined stat loses floor(draw · scale) points, is never below 40, a stat below 40 becomes 40, and it never rises above max(40, old value) |
| PlayerDevelopment.DeclineAmount | src/utils/playerDevelopment.ts:96 | the loss floor(draw · scale) lies between 0 and the scale |
| PlayerDevelopment.DeclineKeys | src/utils/playerDevelopment.ts:95-104 | the listed stats are each declined with one draw, and every other stat is unchanged |
| PlayerDevelopment.DeclineStats | src/utils/playerDevelopment.ts:85-107 | only mechanics, stamina, entry, igl, mental and clutch change; the physical ones lose up to twice the decline rate, the mental ones up to the rate, each floored at 40 |
| PlayerDevelopment.ApplyAgeProgression | src/utils/playerDevelopment.ts:35-63 | the age grows by exactly one and only age and stats change; before 28 every stat moves only toward min(100, potential), by at most 3 · rate (rate 1.5 with morale ≥ 70, else 1, under 22; 0.5 from 22 to 27); from 22 to 27 nothing changes when the rating is at least the potential; from 28 only the declining stats change, physical ones losing at most 2 · (age − 27) · 0.3 and mental ones at most (age − 27) · 0.3, each ending in [40, max(40, old)] |
| PlayerDevelopment.TrainStats | src/utils/playerDevelopment.ts:166-173 | each listed stat is unchanged or was below potential and gains one point capped at potential; other stats are unchanged |
| PlayerDevelopment.TrainSpecificStats | src/utils/playerDevelopment.ts:158-176 | each focus stat is unchanged or was below potential and gains one point capped at potential; every other stat is unchanged |
| PlayerDevelopment.TrainBalanced | src/utils/playerDevelopment.ts:179-194 | every stat is unchanged or gains one point capped at potential, and only the first three keys of the random order can change |
| PlayerDevelopment.DistinctPermutation | src/utils/playerDevelopment.ts:181-185 | a random order of the nine stat keys holds nine distinct keys |
| PlayerDevelopment.ImproveAgentPool | src/utils/playerDevelopment.ts:197-216 | no agent is added or removed; each entry is unchanged or was below 95 and gains one point capped at 95; only the first two entries of the random order can change |
| PlayerDevelopment.TrainAgent | src/utils/playerDevelopment.ts:208-213 | the selected entry is unchanged or was below 95 and gains one point capped at 95; every other entry is unchanged |
| PlayerDevelopment.IndicesPermutation | src/utils/playerDevelopment.ts:202-206 | a random order of the pool's entries holds each entry index exactly once |
| PlayerDevelopment.ApplyTraining | src/utils/playerDevelopment.ts:119-155 | the agents focus changes only the agent pool, as agent training allows; every other focus changes only stats and development, trains exactly the focus stats, and sets development to min(100, development + 2 · efficiency) |
| PlayerDevelopment.TrainFocusStats | src/utils/playerDevelopment.ts:123-145 | for every focus but agents, each stat moves by a training step and only that focus's stats can move |
| PlayerDevelopment.UpdateMorale | src/utils/playerDevelopment.ts:219-260 | only morale changes; it becomes old morale plus the four factor effects, clamped to [0, 100] |
| PlayerDevelopment.MoraleChangeBounds | src/utils/playerDevelopment.ts:229-252 | one morale update moves morale by between -22 and +16 points before clamping |
| PlayerDevelopment.UpdateForm | src/utils/playerDevelopment.ts:263-279 | only form changes; it stays in [0, 100] and equals old form plus the ACS step when that sum is already in range |
| PlayerDevelopment.FormChangeMonotone | src/utils/playerDevelopment.ts:265-273 | the form step never falls as the recent ACS rises, lies in [-5, 5], and so the new form is monotone in the ACS |
| GameState.FindPlayer | src/hooks/useGame.tsx:149 | a player is found exactly when one with that id is on the roster, and the one found is the first with that id |
| GameState.SetStatus | src/hooks/useGame.tsx:190-192 | the roster keeps its length and order; exactly the entries with that id take the new status |
| GameState.RemoveById | src/hooks/useGame.tsx:158 | the roster keeps exactly the players whose id differs, and never grows |
| GameState.ReplaceTeam | src/hooks/useGame.tsx:126-128 | every team of that name is replaced, every other team kept in place |
| GameState.ReplaceInSchedule | src/hooks/useGame.tsx:130-134 | in every match each slot holding the team of that name is replaced and nothing else changes |
| GameState.ReplaceMatch | src/hooks/useGame.tsx:74-76 | every match with that id becomes the updated match and the others stay in place |
| GameState.SignFreeAgentStep | src/hooks/useGame.tsx:99-143 | refused (state unchanged) without a team or with 8 players; otherwise the player joins last, on the team, active if fewer than 5 are active and reserve otherwise, and the team is replaced in all teams and in the schedule |
| GameState.ReleasePlayerStep | src/hooks/useGame.tsx:145-168 | refused unless the first player with that id is a reserve; then the roster strictly shrinks, keeps exactly the players with other ids, and nothing but the roster changes |
| GameState.MoveToReserveStep | src/hooks/useGame.tsx:170-202 | refused when the player is already a reserve or 3 reserves exist; otherwise only that id's status becomes reserve |
| GameState.MoveToActiveStep | src/hooks/useGame.tsx:204-235 | refused unless the player is a reserve and fewer than 5 are active; otherwise only that id's status becomes active |
| GameState.UpdateMatchResultStep | src/hooks/useGame.tsx:71-78 | the match with that id is replaced by the result and nothing else in the state changes |
| GameState.UpdateMatchResultIdempotent | src/hooks/useGame.tsx:71-78 | recording the same result twice gives the state of recording it once |
| GameState.RemovalShrinks | src/hooks/useGame.tsx:158 | removing an id that is on the roster strictly shortens it |
| GameState.SignKeepsLimits | src/hooks/useGame.tsx:103-111 | signing keeps a team within 8 players, 5 active and 3 reserves |
| GameState.ReleaseKeepsLimits | src/hooks/useGame.tsx:145-168 | releasing keeps a team within the 8 / 5 / 3 limits |
| GameState.SetStatusCounts | src/hooks/useGame.tsx:190-192 | with distinct ids a status change adds at most one player to the active or reserve group |
| GameState.MoveToReserveKeepsLimits | src/hooks/useGame.tsx:170-202 | with distinct ids benching keeps the team within the 8 / 5 / 3 limits |
| GameState.MoveToActiveKeepsLimits | src/hooks/useGame.tsx:204-235 | with distinct ids activating keeps the team within the 8 / 5 / 3 limits |
| GameState.ActiveNotGained | src/hooks/useGame.tsx:190-192 | benching never raises the number of active players |
| GameState.ReserveNotGained | src/hooks/useGame.tsx:223-225 | activating never raises the number of reserves |
| GameState.Game.constructor | src/hooks/useGame.tsx:40-47 | a new game has no team and starts at week 1 of Stage 1 |
| GameState.Game.InitializeGame | src/hooks/useGame.tsx:57-69 | on a cache miss it succeeds exactly when the team is in the table; on success the chosen team (the cached one on a hit, else one built from its table entry and then cached), the region, every team built from its table entry, week 1 and Stage 1 are set, and the schedule is a reordering of the round-robin fixtures of those teams with each position's week; on failure state and cache are unchanged |
| GameState.Game.UpdateMatchResult | src/hooks/useGame.tsx:71-78 | the state becomes the result of recording the match |
| GameState.Game.AdvanceWeek | src/hooks/useGame.tsx:80-85 | only the week changes, by one |
| GameState.Game.ResetGame | src/hooks/useGame.tsx:87-97 | the state returns to that of a new game |
| GameState.Game.SignFreeAgent | src/hooks/useGame.tsx:99-143 | the state becomes the signing step of the old state |
| GameState.Game.ReleasePlayer | src/hooks/useGame.tsx:145-168 | the state becomes the release step of the old state |
| GameState.Game.MoveToReserve | src/hooks/useGame.tsx:170-202 | the state becomes the benching step of the old state |
| GameState.Game.MoveToActive | src/hooks/useGame.tsx:204-235 | the state becomes the activation step of the old state |
| ScrimSimulator.UpcomingOpponentNames | src/utils/scrimSimulator.ts:25-28 | a name is listed exactly when it is not the player's team and plays in a match of weeks currentWeek to currentWeek + 2 |
| ScrimSimulator.ScrimPartners | src/utils/scrimSimulator.ts:30-35 | a team is a partner exactly when it is in the league, is not the player's team and is not an upcoming opponent |
| ScrimSimulator.TeamAverageStats | src/utils/scrimSimulator.ts:63-76 | a team without active players averages 50 |
| ScrimSimulator.SumOfAveragesWithin | src/utils/scrimSimulator.ts:67-73 | when every player's average lies in [lo, hi], the sum of n players' averages lies in [n · lo, n · hi] |
| ScrimSimulator.TeamAverageWithin | src/utils/scrimSimulator.ts:63-76 | when every rostered stat lies in [lo, hi] (with 50 inside), the team average does too |
| ScrimSimulator.TeamAverageIgnoresReserves | src/utils/scrimSimulator.ts:64 | adding a reserve leaves the team average unchanged |
| ScrimSimulator.ScrimQuality | src/utils/scrimSimulator.ts:39 | the partner's quality lies in [40, 100], and within 10 of the team average when that window fits |
| ScrimSimulator.ObjectiveStrengths | src/utils/scrimSimulator.ts:79-94 | every objective gets the base shifted by its own draw, in objective order; so at most 100 and at least min(100, base - 10), below base + 10 when that is at most 100 |
| ScrimSimulator.ObjectiveStrengthsDrawn | src/utils/scrimSimulator.ts:79-94 | each objective strength is the base shifted by some draw in [0, 1) |
| ScrimSimulator.ShiftedStrength | src/utils/scrimSimulator.ts:84 | one shifted strength lies in [min(100, base - 10), 100] and below base + 10 when that is at most 100 |
| ScrimSimulator.GenerateMapStrengths | src/utils/scrimSimulator.ts:97-106 | exactly the ten scrim maps get a strength; a practised map keeps its practice level, any other gets a value in [50, 80) |
| ScrimSimulator.SortByQuality | src/utils/scrimSimulator.ts:59 | the partners are reordered, best scrim quality first, as a permutation |
| ScrimSimulator.KeyedByQualityPermutation | src/utils/scrimSimulator.ts:59 | reordering keeps every entry keyed by its own scrim quality |
| ScrimSimulator.SortedByQuality | src/utils/scrimSimulator.ts:59 | entries sorted by their quality keys are in non-increasing quality |
| ScrimSimulator.CollectOpponents | src/utils/scrimSimulator.ts:30-56 | one opponent per partner, in league order, each `DescribesTeam` of it: the partner's identity; a quality that is `ScrimQuality` of the partner's `TeamAverageStats` for some draw; every objective strength that average shifted by some draw; exactly the ten maps, each at the partner's practice level or in [50, 80) |
| ScrimSimulator.DescribedWindow | src/utils/scrimSimulator.ts:38-40 | an opponent describing a team has a quality in [40, 100] and within 10 of the team average when that window fits; objective strengths in [min(100, average - 10), 100] and below average + 10 when that fits; map strengths the practice level or in [50, 80) |
| ScrimSimulator.GenerateScrimOpponents | src/utils/scrimSimulator.ts:16-60 | the opponents are sorted best quality first, are as many as the partners, and every partner is described by some opponent and every opponent describes a partner, in the exact sense of `DescribesTeam` (quality from the partner's average, map strengths from its practice) |
| ScrimSimulator.FindPlayer | src/utils/scrimSimulator.ts:130 | a found player is on the roster with that id; none is found exactly when no rostered player has it |
| ScrimSimulator.AgentProficiency | src/utils/scrimSimulator.ts:160 | an agent missing from the pool counts 0; any other value is that agent's entry |
| ScrimSimulator.RoleSetAtMostFive | src/utils/scrimSimulator.ts:166-170 | a composition has at most five distinct roles |
| ScrimSimulator.RoleBonusBounded | src/utils/scrimSimulator.ts:171 | the role-diversity bonus lies in [0, 25] |
| ScrimSimulator.CompositionScore | src/utils/scrimSimulator.ts:148-174 | the composition quality lies in [0, 100] |
| ScrimSimulator.CalculateCompositionQuality | src/utils/scrimSimulator.ts:148-174 | the loop computes 50 plus the proficiency bonus plus 5 per role, clamped, and the result lies in [0, 100] |
| ScrimSimulator.QualityRating | src/utils/scrimSimulator.ts:122 | the rating is at most 100, not negative for inputs in [0, 100], and at least the smaller of the two qualities unless capped |
| ScrimSimulator.ScaledGainWithin | src/utils/scrimSimulator.ts:179-185 | quality/100 · scale · factor lies in [0, 1.25 · scale] for quality in [0, 100] |
| ScrimSimulator.MapProficiencyGain | src/utils/scrimSimulator.ts:177-180 | the map gain lies in [0, 3] |
| ScrimSimulator.ObjectiveProficiencyGain | src/utils/scrimSimulator.ts:183-186 | the objective gain lies in [0, 6] |
| ScrimSimulator.ObjectiveGainReachesSix | src/utils/scrimSimulator.ts:183-186 | a quality of 100 with a high draw gives 6 points, one more than the five the source's comment names |
| ScrimSimulator.ProficiencyGainMonotone | src/utils/scrimSimulator.ts:177-186 | for the same draw, a better session never gives a smaller map or objective gain |
| ScrimSimulator.AgentProficiencyGain | src/utils/scrimSimulator.ts:198-201 | the agent gain is at most 5, and for a proficiency not above potential it lies between 0 and the headroom to potential |
| ScrimSimulator.GainFactorBounds | src/utils/scrimSimulator.ts:201 | a · g · f with a in [0, 1] and f in [0, 1) is at most max(0, g), and not negative when g is not |
| ScrimSimulator.BelowPotentialMembers | src/utils/scrimSimulator.ts:249-251 | a key is kept exactly when it is listed and the player's stat is below potential |
| ScrimSimulator.CalculateStatImprovements | src/utils/scrimSimulator.ts:225-257 | the gains are exactly `StatGains` of the objective's stats: a stat below potential gains 1 iff its draw is below 0.3 · quality / 100, one draw per such stat in list order; nothing else gains |
| ScrimSimulator.StatGainsWithin | src/utils/scrimSimulator.ts:248-253 | only listed stats below potential gain, each by exactly 1 point |
| ScrimSimulator.StatGainsDrawn | src/utils/scrimSimulator.ts:248-253 | with distinct keys, key i gains exactly when its stat is below potential and its own draw (the one after the draws of the earlier keys below potential) is under 0.3 · quality / 100 |
| ScrimSimulator.ObjectiveGainsDrawn | src/utils/scrimSimulator.ts:233-253 | every stat an objective lists gains exactly when it is below potential and its own draw is under 0.3 · quality / 100 |
| ScrimSimulator.NoGainsWithoutQuality | src/utils/scrimSimulator.ts:248-253 | a session of quality 0 or less improves no stat |
| ScrimSimulator.DrawnImprovementFits | src/utils/scrimSimulator.ts:189-222 | the drawn gains carry the player's id and name, an agent gain of at most 5 for a quality in [0, 100], stat gains of 1 on listed stats below potential only, and synergy gains of +1 or +2 with other players only |
| ScrimSimulator.SynergyGains | src/utils/scrimSimulator.ts:207-213 | each gain names a different composition member and is +1 or +2; there are at most as many gains as members |
| ScrimSimulator.CalculatePlayerImprovements | src/utils/scrimSimulator.ts:189-222 | the improvement is `DrawnImprovement`: the agent gain from the first draw, the stat gains `StatGains` from the next ones, then `SynergyGains` from where those end; the draws used end at `ImprovementEnd`; the bounds of `ImprovementFits` hold |
| ScrimSimulator.FeedbackMonotone | src/utils/scrimSimulator.ts:279-287 | a better session never gets a lower feedback tier |
| ScrimSimulator.GenerateScrimFeedback | src/utils/scrimSimulator.ts:260-288 | the feedback names the partner and the objective's topic, and is excellent exactly at 80 or more, good exactly in [60, 80), productive exactly in [40, 60) and challenging exactly below 40 |
| ScrimSimulator.SlotPlayers | src/utils/scrimSimulator.ts:130 | one player per composition slot, in slot order: the rostered player the slot names |
| ScrimSimulator.DrawnSlotsAt | src/utils/scrimSimulator.ts:129-132 | slot i's improvement is its player's gains drawn from where slot i − 1's draws end |
| ScrimSimulator.DrawnSlotsFit | src/utils/scrimSimulator.ts:129-132 | every slot's improvement obeys the bounds of `ImprovementFits` for the slot's player |
| ScrimSimulator.CollectImprovements | src/utils/scrimSimulator.ts:129-132 | one improvement per composition slot, in order: slot i's is `DrawnImprovement` of the slot's player and agent, drawn from where slot i − 1's draws end (`SlotStart`) |
| ScrimSimulator.SimulateScrim | src/utils/scrimSimulator.ts:109-145 | the rating is the capped mean of base and composition quality; the team gains are the map and objective gains of the first two draws, within [0, 3] and [0, 6]; one improvement per slot, each the `DrawnImprovement` of its slot from the third draw on; feedback follows the rating |
| TeamUtils.FindBasicTeam | src/utils/teamUtils.ts:9 | a table entry is found exactly when one of that name exists, and the one found has that name |
| TeamUtils.FindElite | src/utils/teamUtils.ts:19 | an elite record is found exactly when one of that name exists, and the one found has that name |
| TeamUtils.CreateFullTeam | src/utils/teamUtils.ts:7-51 | an error exactly when the team is not in the region's table; otherwise the team has the slug id, the entry's names and region, one player per roster slot in order (the elite record when one exists, else a generated player of the slot's role), all on the team, a 2 500 000 budget and a clean record |
| TeamUtils.GetAllTeamsInRegion | src/utils/teamUtils.ts:54-57 | one team per table entry, in table order, each built from the entry of its own name |
| TeamUtils.BuiltAppend | src/utils/teamUtils.ts:56 | appending the team built from the next entry extends the built prefix by one |
| TeamUtils.CacheKeyInjective | src/utils/teamUtils.ts:63 | two (region, name) pairs share a cache key only when they are equal |
| TeamUtils.TeamCache.constructor | src/utils/teamUtils.ts:60 | the cache starts empty |
| TeamUtils.TeamCache.GetCachedTeam | src/utils/teamUtils.ts:62-70 | a hit returns the cached team and changes nothing; a miss builds the team, stores it under its key and returns it, or reports the missing team and leaves the cache alone |
| TeamUtils.TeamCache.ClearTeamCache | src/utils/teamUtils.ts:72-74 | the cache becomes empty |
| TeamUtils.MatchIdInjective | src/utils/teamUtils.ts:90 | different counters give different match ids |
| TeamUtils.PairCountFormula | src/utils/teamUtils.ts:87-99 | n teams have n(n-1)/2 pairs |
| TeamUtils.RowLength | src/utils/teamUtils.ts:88-98 | the inner loop from j pushes |teams| - j fixtures |
| TeamUtils.FixturesLength | src/utils/teamUtils.ts:87-99 | the nested loops from row i push as many fixtures as the later teams have pairs |
| TeamUtils.RowFacts | src/utils/teamUtils.ts:88-98 | each fixture of a row puts team i against a later team, with the next counter as its id, unplayed in Stage 1 |
| TeamUtils.FixturesFacts | src/utils/teamUtils.ts:87-99 | each fixture from row i on pairs two teams a < b at or after i, numbered in push order, unplayed in Stage 1 |
| TeamUtils.RowCovers | src/utils/teamUtils.ts:88-98 | the row of team i meets every team from j on |
| TeamUtils.FixturesCover | src/utils/teamUtils.ts:87-99 | every pair of teams from row i on meets in some fixture |
| TeamUtils.RoundRobinFacts | src/utils/teamUtils.ts:87-99 | the round robin holds n(n-1)/2 fixtures, every pair of teams meets, and the match ids are distinct |
| TeamUtils.NoSelfMatch | src/utils/teamUtils.ts:88 | with distinct team names no team meets itself |
| TeamUtils.WeeksShape | src/utils/teamUtils.ts:108-111 | weeks start at 1, never decrease along the schedule, and a week holds fewer than floor(n/2) + 1 consecutive matches |
| TeamUtils.DivisionStep | src/utils/teamUtils.ts:110 | integer division by a positive number is monotone, and equal quotients come from numbers closer than the divisor |
| TeamUtils.PushRow | src/utils/teamUtils.ts:88-98 | the inner loop appends exactly the row of team i and advances the counter by its length |
| TeamUtils.PushFixtures | src/utils/teamUtils.ts:86-99 | the nested loops build exactly the round robin |
| TeamUtils.RowThenRest | src/utils/teamUtils.ts:87-99 | the fixtures from row i on are that row's, then the later rows' |
| TeamUtils.ShuffleInPlace | src/utils/teamUtils.ts:101-105 | the Fisher-Yates pass permutes the array and takes one draw per slot above 0 |
| TeamUtils.AssignWeeks | src/utils/teamUtils.ts:107-111 | every match keeps everything but its week, which becomes floor(k / floor(n/2)) + 1 |
| TeamUtils.PermutationKeepsIdsDistinct | src/utils/teamUtils.ts:101-105 | a reordering of matches with distinct ids keeps them distinct |
| TeamUtils.RoundRobinSchedule | src/utils/teamUtils.ts:79-113 | fewer than two teams give no matches; otherwise the schedule is a reordering of the round robin with each match in its position's week, and the ids are distinct |
| TeamUtils.GenerateSchedule | src/utils/teamUtils.ts:77-114 | one team per table entry, each built from that entry; for n >= 2 teams the schedule is a reordering (same multiset) of the round-robin fixtures, n(n-1)/2 unplayed Stage 1 matches, with each position's week; none for fewer teams; distinct ids |
| TeamUtils.ShuffledUnplayed | src/utils/teamUtils.ts:89-97 | every reordered fixture is an unplayed Stage 1 match, and there are n(n-1)/2 of them |
| Standings.IndexOfName | src/components/StandingsView.tsx:47-48 | no entry is found exactly when no entry bears the name; a found position bears it |
| Standings.SameTeamsSameIndex | src/components/StandingsView.tsx:47-48 | tables with the same teams in the same places find every name at the same position |
| Standings.PutFinds | src/components/StandingsView.tsx:31 | after a set, a name is present exactly when it was before or is the team's own |
| Standings.PutKeepsDistinct | src/components/StandingsView.tsx:31 | a set never makes two entries share a name |
| Standings.InitialTableCovers | src/components/StandingsView.tsx:30-41 | the initial table has distinct names, and a name is in it exactly when some team of the league bears it |
| Standings.InitialTableEntries | src/components/StandingsView.tsx:30-41 | the initial table is no longer than the league, and every entry is zeroed and holds a team of the league |
| Standings.MapsWonBy | src/components/StandingsView.tsx:66-67 | a side never wins more maps than were played |
| Standings.MatchCredit | src/components/StandingsView.tsx:53-79 | crediting a match keeps the same teams in the same places |
| Standings.SharesAdd | src/components/StandingsView.tsx:53-79 | a side's result, map and round shares together make its share of the match |
| Standings.PassesCompose | src/components/StandingsView.tsx:53-79 | three passes over the same two entries equal one pass by the summed moves |
| Standings.PairEntries | src/components/StandingsView.tsx:53-79 | for two different entries, a pass moves the first by its share, the second by its share, and no other entry |
| Standings.MatchCreditEntries | src/components/StandingsView.tsx:53-79 | for two different teams, the winner gains a win and the loser a loss, both a match played, the map and round differentials move by opposite margins, and no other entry changes |
| Standings.ApplyMatch | src/components/StandingsView.tsx:44-80 | a match keeps the same teams in the same places and changes nothing unless it is decided and both teams are in the table |
| Standings.ApplyMatchAt | src/components/StandingsView.tsx:44-80 | a counted match between different teams moves each entry by exactly its share |
| Standings.TallyAll | src/components/StandingsView.tsx:44-80 | crediting the schedule keeps the same teams in the same places |
| Standings.TallyBalanced | src/components/StandingsView.tsx:44-80 | every entry keeps wins + losses == matches played, none negative |
| Standings.CreditBalanced | src/components/StandingsView.tsx:53-63 | crediting one match keeps every entry balanced |
| Standings.PairBalanced | src/components/StandingsView.tsx:53-63 | a move adding as many matches as wins plus losses keeps every entry balanced |
| Standings.SumBump | src/components/StandingsView.tsx:53-79 | moving one entry moves the table's totals by the same amount |
| Standings.SumToBump | src/components/StandingsView.tsx:53-79 | moving entry k moves the sum of a prefix exactly when the prefix holds k |
| Standings.SumPair | src/components/StandingsView.tsx:53-79 | a pass over two entries moves the totals by both shares |
| Standings.SumOfFresh | src/components/StandingsView.tsx:30-41 | a table of fresh entries totals zero |
| Standings.TallyTotals | src/components/StandingsView.tsx:44-80 | crediting the schedule adds 2 matches played, one win and one loss per counted match to the totals, and nothing to the differentials |
| Standings.CountedAgrees | src/components/StandingsView.tsx:45-50 | tables with the same teams in the same places count the same matches |
| Standings.ApplyTotals | src/components/StandingsView.tsx:44-80 | one match adds 2 played, a win and a loss to the totals when counted, and nothing otherwise |
| Standings.CreditTotals | src/components/StandingsView.tsx:53-79 | a decided match adds 2 played, a win and a loss to the totals, and its differentials cancel |
| Standings.SidesCancel | src/components/StandingsView.tsx:66-79 | the two sides' shares sum to 2 played, one win, one loss and zero differentials |
| Standings.LeagueTotals | src/components/StandingsView.tsx:26-80 | over the league, wins equal losses equal the counted matches, matches played are twice that, and the map and round differentials sum to zero |
| Standings.WinRate | src/components/StandingsView.tsx:86 | a balanced entry's win rate lies in [0, 100] |
| Standings.StandingKeyed | src/components/StandingsView.tsx:88-97 | every entry is paired with its comparator keys |
| Standings.KeyedByStandingPermutation | src/components/StandingsView.tsx:88-97 | reordering keeps every entry paired with its own keys |
| Standings.RanksAtOrAboveWins | src/components/StandingsView.tsx:89-92 | ranking at or above another means at least as many wins, and at least the win rate on equal wins |
| Standings.SortStandings | src/components/StandingsView.tsx:88-97 | the entries are reordered as a permutation so that each ranks at or above every later one by wins, win rate, map and round differential |
| Standings.SortedByStanding | src/components/StandingsView.tsx:88-97 | entries sorted by their keys are in comparator order |
| Standings.WithWinRates | src/components/StandingsView.tsx:84-87 | each entry keeps everything but its win rate, which is filled in |
| Standings.AssignRanks | src/components/StandingsView.tsx:98-101 | entry k gets rank k + 1 and keeps everything else |
| Standings.PermutationKeepsNamesDistinct | src/components/StandingsView.tsx:83-101 | reordering keeps team names distinct |
| Standings.RankOrder | src/components/StandingsView.tsx:83-101 | ranks run 1..n in order, and each entry ranks at or above every later one with at least its wins |
| Standings.RankFrom | src/components/StandingsView.tsx:83-101 | each ranked entry is an entry of the table with its win rate and its rank filled in |
| Standings.RankCovers | src/components/StandingsView.tsx:83-101 | every team of the table is ranked |
| Standings.RankNames | src/components/StandingsView.tsx:83-101 | a name is in the ranked table exactly when it is in the table |
| Standings.RankDistinct | src/components/StandingsView.tsx:83-101 | ranking keeps team names distinct |
| Standings.StandingsNames | src/components/StandingsView.tsx:26-104 | a name is in the standings exactly when some team of the league bears it |
| Standings.StandingsFacts | src/components/StandingsView.tsx:26-104 | the standings have at most one entry per team, distinct names, teams of the league, ranks 1..n in comparator order, and balanced counters with their win rates |
| Standings.TalliedFacts | src/components/StandingsView.tsx:30-80 | before ranking, the table has at most one entry per team, distinct names, and balanced entries of league teams |
| Standings.RankEntries | src/components/StandingsView.tsx:83-101 | ranking keeps each entry's team and balance and fills in its win rate |
| Standings.PlayoffSplit | src/components/StandingsView.tsx:108-110 | the playoff and eliminated groups split the standings; the playoffs hold the top min(n, 8), ranked 1 to 8, everyone else ranks below 8 |
| Standings.CreditResult | src/components/StandingsView.tsx:53-63 | one match played each, then the win to one side and the loss to the other |
| Standings.CreditMapDifferential | src/components/StandingsView.tsx:66-70 | the map differentials move by the map margin in opposite directions |
| Standings.CreditRounds | src/components/StandingsView.tsx:73-79 | map by map, each side's round differential moves by its own score minus the other's |
| Standings.TallyMatch | src/components/StandingsView.tsx:44-80 | the view's three in-place passes credit a match as the match-level credit does |
| Standings.PassesMakeCredit | src/components/StandingsView.tsx:53-79 | the result, map and round passes in sequence make the match credit |
| Standings.PassesClose | src/components/StandingsView.tsx:53-79 | the three tables the passes build end at the match credit |
| Standings.ComputeStandings | src/components/StandingsView.tsx:26-104 | the view's loops (table initialisation, match tally, sort and ranking) compute exactly the specified standings, whose coverage, totals, order and ranks `Standings.StandingsFacts` states |
| Dashboard.Wins | src/components/Dashboard.tsx:22 | the wins never exceed the number of matches |
| Dashboard.Losses | src/components/Dashboard.tsx:23-27 | the losses never exceed the number of matches |
| Dashboard.WinsAndLosses | src/components/Dashboard.tsx:22-27 | no match is both a win and a loss, so wins plus losses never exceed the matches |
| Dashboard.RecordCountsDecided | src/components/Dashboard.tsx:22-27 | when every match's winner plays in it, the team's wins plus losses are exactly the decided matches it played |
| Dashboard.TeamMaps | src/components/Dashboard.tsx:42-44 | the team never wins more maps than were played |
| Dashboard.MapDeltaBounds | src/components/Dashboard.tsx:34-46 | an unrecorded match moves the map differential by 0, a recorded one by at most its number of maps either way |
| Dashboard.TeamRecord | src/components/Dashboard.tsx:22-56 | the view's counts and loop compute the wins, losses, map differential and round differential of the team |
| Dashboard.MapsSplit | src/components/Dashboard.tsx:45 | every map is won by exactly one side |
| Dashboard.TeamMapsSide | src/components/Dashboard.tsx:42-44 | with the team on one side only, its maps are that side's |
| Dashboard.TeamRoundsSide | src/components/Dashboard.tsx:49-55 | side A's round total is the round margin; side B's is its negation |
| Dashboard.EachReported | src/components/Dashboard.tsx:33-56 | a schedule whose matches are each reported is reported as a whole |
| Dashboard.DecidedDelta | src/components/Dashboard.tsx:22-56 | a decided match adds to the team's record side A's result and margins, side B's mirrored, or nothing |
| Dashboard.MatchStep | src/components/Dashboard.tsx:22-56 | for a reported match, the league table moves the team's entry by what the dashboard counts |
| Dashboard.CountedStep | src/components/Dashboard.tsx:22-56 | for a counted match, the team's entry moves by the dashboard's delta |
| Dashboard.ShareIsDelta | src/components/Dashboard.tsx:22-56 | the league table's share for the team is the dashboard's delta |
| Dashboard.RecordMatchesTally | src/components/Dashboard.tsx:22-56 | over a schedule of reported matches, the team's tallied entry moves by the dashboard's record |
| Dashboard.DashboardAgreesWithStandings | src/components/Dashboard.tsx:22-56 | when every match is reported, the team's standings entry has the dashboard's wins, losses, their sum as matches played, and both differentials |
| MatchRound.Weights | src/utils/matchSimulator.ts:245 | one weight per player, in team order, each that player's value of the stat |
| MatchRound.MaxOf | src/utils/matchSimulator.ts:233 | the maximum is at least every value and is one of them |
| MatchRound.PrefixSumPercent | src/utils/matchSimulator.ts:237 | k values in [0, 100] sum to between 0 and 100 · k |
| MatchRound.Strengths | src/utils/matchSimulator.ts:207-230 | one strength per player, in team order, each that player's side rating scaled by map proficiency / 70 |
| MatchRound.CalculateTeamStrength | src/utils/matchSimulator.ts:200-241 | the loop computes the summed player strength scaled by the best IGL's and the mean vibes' bonus factors |
| MatchRound.SumStrengths | src/utils/matchSimulator.ts:207-230 | the forEach adds up exactly the players' strengths |
| MatchRound.StrengthBonusBounds | src/utils/matchSimulator.ts:232-240 | for stats in [0, 100] and a non-negative sum, the bonuses only scale the sum up, by at most 15% and 10% |
| MatchRound.IglFactorBounds | src/utils/matchSimulator.ts:233-234 | the IGL factor lies in [1, 1.15] |
| MatchRound.VibesFactorBounds | src/utils/matchSimulator.ts:237-238 | the vibes factor lies in [1, 1.1] |
| MatchRound.AverageWithin | src/utils/matchSimulator.ts:237 | the mean of values in [0, 100] lies in [0, 100] |
| MatchRound.BoundedScaling | src/utils/matchSimulator.ts:234-238 | a non-negative sum times the two factors lies between the sum and 1.265 times it |
| MatchRound.GetRandomWeightedPlayer | src/utils/matchSimulator.ts:244-260 | the index is the `WeightedPick` of the draw: on the team; a zero total picks the first player; otherwise the walk passes every earlier prefix and stops at the first prefix sum reaching draw · total, or falls through to the first player |
| MatchRound.WeightedPickUnique | src/utils/matchSimulator.ts:244-260 | the weighted choice is determined by the team, the stat and the draw: at most one index is a `WeightedPick` |
| MatchRound.RouletteWalkStops | src/utils/matchSimulator.ts:250-257 | with a draw in [0, 1) and a positive total, the target lies below the total, so the walk stops on some player |
| MatchRound.WeightedChoiceHasWeight | src/utils/matchSimulator.ts:250-257 | a positive draw never stops the walk on a player of weight 0 |
| MatchRound.SimulateKill | src/utils/matchSimulator.ts:176-197 | the defense loses the player exactly when the attack's randomised strength beats the defense's; the killer is the entry-weighted `WeightedPick` of the winning side's alive players at the third draw, the victim the mechanics-weighted pick of the other side's at the fourth |
| MatchRound.FindIndexById | src/utils/matchSimulator.ts:103 | -1 exactly when no player has the id; otherwise the first position holding it |
| MatchRound.FindMember | src/utils/matchSimulator.ts:103 | with distinct ids, looking up a member's id finds that member |
| MatchRound.SpliceOut | src/utils/matchSimulator.ts:104 | splicing a position out of a list with distinct ids removes exactly that player and keeps the ids distinct |
| MatchRound.MarkTrades | src/utils/matchSimulator.ts:112-126 | the pass keeps every kill but sets its traded flag exactly when it is a trade: the next kill within 3 s, by the victim's side, on the killer |
| MatchRound.Victims | src/utils/matchSimulator.ts:99 | the victims of the kills, one per kill, in order |
| MatchRound.DisjointTeams | src/utils/matchSimulator.ts:29-36 | with distinct ids across both sides, no attacker is a defender |
| MatchRound.DistinctParts | src/utils/matchSimulator.ts:29-36 | distinct ids across both sides means distinct ids within each |
| MatchRound.KillStep | src/utils/matchSimulator.ts:89-108 | one kill keeps the round's bookkeeping, and the victim leaves the alive list of its own side |
| MatchRound.VictimsAppend | src/utils/matchSimulator.ts:99 | a new kill adds its victim at the end of the victims |
| MatchRound.AttackerKilled | src/utils/matchSimulator.ts:102-104 | an attacker's death is found in and spliced from the alive attackers, keeping the bookkeeping |
| MatchRound.DefenderKilled | src/utils/matchSimulator.ts:105-107 | a defender's death is found in and spliced from the alive defenders, keeping the bookkeeping |
| MatchRound.VictimLeaves | src/utils/matchSimulator.ts:89-108 | a kill between the sides whose victim leaves the alive lists keeps the bookkeeping |
| MatchRound.StillCovered | src/utils/matchSimulator.ts:99-108 | every team member stays alive or among the victims after a kill |
| MatchRound.StillOpposed | src/utils/matchSimulator.ts:99 | every kill stays between the two sides |
| MatchRound.VictimsGone | src/utils/matchSimulator.ts:99-108 | no victim, old or new, is alive after the kill |
| MatchRound.VictimsDistinct | src/utils/matchSimulator.ts:99-108 | nobody dies twice, since a victim must be alive |
| MatchRound.KillDelay | src/utils/matchSimulator.ts:55 | for a draw in [0, 1) and a positive average kill time, the time to the next engagement is at least half the average and below the average |
| MatchRound.ResolveKill | src/utils/matchSimulator.ts:89-108 | one engagement keeps the bookkeeping, removes exactly one alive player, appends one untraded kill at the current time and leaves earlier kills unchanged |
| MatchRound.BookkeepingAccounts | src/utils/matchSimulator.ts:54-109 | when the loop ends, every player is alive exactly when not a victim, every kill is between the sides, nobody dies twice, and fewer kills than players happen |
| MatchRound.TradePassKeepsAccount | src/utils/matchSimulator.ts:112-126 | the trade pass keeps the account of who killed whom |
| MatchRound.TradePassMarks | src/utils/matchSimulator.ts:112-126 | after the pass exactly the trades carry the traded flag |
| MatchRound.SimulateRound | src/utils/matchSimulator.ts:29-173 | the kills account for every player, the result follows the round rules (time expired without a plant by 90 s, detonation 45 s after a plant, a defuse needing more than 7 s, eliminations), and the trades are marked exactly when the round ended on a wipe |
| MatchRound.StoppedEarly | src/utils/matchSimulator.ts:66-87 | a round stopped by the clock or the bomb with both sides standing follows the round rules, and no kill is marked traded |
| MatchRound.BookkeepingAtStart | src/utils/matchSimulator.ts:34-36 | before the first kill everyone is alive and the bookkeeping holds |
| MatchRound.FinishRound | src/utils/matchSimulator.ts:111-172 | after a wipe, the trades are marked and the winner and win condition follow the round rules |
| MatchRound.TradeIsRevenge | src/utils/matchSimulator.ts:116-124 | a traded kill is avenged: the next kill is by the victim's side and kills the killer |
| MatchMap.BestAgentIndex | src/utils/matchSimulator.ts:403-412 | the chosen entry has the largest proficiency in the pool, and every earlier entry a strictly smaller one (the first maximum wins) |
| MatchMap.GetPlayerAgent | src/utils/matchSimulator.ts:398-415 | an empty pool falls back to Jett; otherwise the agent returned is one whose proficiency is the pool's maximum |
| MatchMap.InitializePerformances | src/utils/matchSimulator.ts:368-395 | one zeroed record per player, in roster order, keyed by the player's id or, when that is empty, the name |
| MatchMap.KillCreditStep | src/utils/matchSimulator.ts:427-463 | crediting one more kill event extends the round's credit by that event alone, and bumps the kill and traded-death counts only for its killer and victim |
| MatchMap.CreditKiller | src/utils/matchSimulator.ts:428-441 | only the killer's record changes: one more kill, and one more first kill on the round's first event; the killer's round counts towards KAST |
| MatchMap.CreditVictim | src/utils/matchSimulator.ts:429-461 | only the victim's record changes: one more death, and one more first death on the round's first event; a traded victim's round counts towards KAST |
| MatchMap.CreditKillEvent | src/utils/matchSimulator.ts:427-463 | one kill event credits its killer and its victim and no other player |
| MatchMap.CreditKills | src/utils/matchSimulator.ts:427-463 | after the round's kill events each record holds its own kill credit, and a player's round counts towards KAST so far exactly when they got a kill or a traded death |
| MatchMap.CreditSurvivors | src/utils/matchSimulator.ts:466-471 | every survivor's round counts towards KAST, and nobody else's changes |
| MatchMap.CreditAssists | src/utils/matchSimulator.ts:474-488 | only the assist counter may change, by at most one and only for a player eligible on a won round (no kill, and survived or died); an assist makes the round count towards KAST |
| MatchMap.CloseRound | src/utils/matchSimulator.ts:443-447 | each player gets the multi-kill tier of their kill count in the round, and their KAST round count grows by one exactly when the round counted |
| MatchMap.CountMultiKill | src/utils/matchSimulator.ts:444-447 | the tier counter equal to the kill count (2 to 5) is bumped by one, no other |
| MatchMap.UpdatePerformancesFromRound | src/utils/matchSimulator.ts:418-489 | each record becomes the round's credit of the old one; an assist only ever goes to an eligible player; the KAST round count grows by one exactly for a kill, a traded death, survival or an assist |
| MatchMap.FinalizePerformances | src/utils/matchSimulator.ts:492-516 | each record gets its rates and ratings computed from its own counters, the round total and its KAST round count |
| MatchMap.KillDeathRatioFacts | src/utils/matchSimulator.ts:498 | K/D is non-negative, equals the kills without deaths, and times the deaths gives back the kills |
| MatchMap.QuotientNonNegative | src/utils/matchSimulator.ts:499-502 | the per-round rates of non-negative counters are non-negative |
| MatchMap.CombatScoreNonNegative | src/utils/matchSimulator.ts:505-508 | ACS and ADR of non-negative counters are non-negative |
| MatchMap.KastPercentWithin | src/utils/matchSimulator.ts:511 | a KAST round count within the rounds played gives a percentage in [0, 100] |
| MatchMap.FinalizedInRange | src/utils/matchSimulator.ts:497-515 | a finalized record of sound counters has a non-negative K/D tied to kills and deaths, non-negative ACS and ADR, and KAST in [0, 100] |
| MatchMap.FirstDecidedScore | src/utils/matchSimulator.ts:329-340 | the first score at which the loop's exit tests pass is 13 to at most 11, a two-round overtime win, or 16-15 after round 31 |
| MatchMap.CreditKeepsSound | src/utils/matchSimulator.ts:311-326 | crediting a round keeps every record keyed to its player, its counters non-negative and its KAST count within the rounds played |
| MatchMap.PlayRoundSides | src/utils/matchSimulator.ts:290-301 | round n is played with team A's roster attacking in rounds 1 to 12 and in odd overtime rounds and defending otherwise, and team A wins it exactly when the winning side is the one it played |
| MatchMap.PlayMapRound | src/utils/matchSimulator.ts:287-326 | round n is played with that round's sides; team A wins it exactly when the winning side is the one it played; each team's records are credited with the round as won or lost by that team, and stay sound for one more round |
| MatchMap.NextRound | src/utils/matchSimulator.ts:287-326 | one pass of the loop: the round is played with its sides and credited, the team that won it scores one, and the round joins the map's rounds with the score still accounted for |
| MatchMap.RoundAppended | src/utils/matchSimulator.ts:299-307 | appending round a+b+1, played with its sides, to an undecided map at a-b gives a+1-b when team A won it and a-(b+1) otherwise, and the rounds still account for the score |
| MatchMap.ScoreAppended | src/utils/matchSimulator.ts:303-307 | the appended round adds one to team A's round wins exactly when team A won it, and no earlier score decided the map |
| MatchMap.ValidFinalScoreShape | src/utils/matchSimulator.ts:329-343 | a final score is never a tie and takes 13 to 31 rounds |
| MatchMap.PlayRounds | src/utils/matchSimulator.ts:285-341 | the round loop ends on a decided, valid final score; round n of the map was played with team A attacking in rounds 1 to 12 and odd overtime rounds, team A's score counts the rounds whose winning side was the one it played, and no earlier score decided the map; both teams' records are sound for every round played |
| MatchMap.SimulateMap | src/utils/matchSimulator.ts:263-365 | the result is for the map played; its score is accounted for by the map's rounds, each played with that round's sides; the score line is a valid final score whose winner has more rounds, overtime exactly past round 24, one record per player keyed to them, with K/D, ACS, ADR and KAST in range |
| MatchMap.FinalScore | src/utils/matchSimulator.ts:343-364 | the result at a final score: the higher score wins, overtime exactly when the map lasted beyond 24 rounds with the rounds past 24 counted, and the records carried unchanged |
| MatchMap.FinalizeSide | src/utils/matchSimulator.ts:347-348 | finalizing a side's sound records puts every rating in range and keeps the records keyed to their players |
| MatchMap.FinalizedRecords | src/utils/matchSimulator.ts:497-515 | records finalized from sound counters are in range and keyed to their players |
| MatchMap.DistinctSwap | src/utils/matchSimulator.ts:291-296 | ids distinct across the two teams stay distinct when the sides swap |
| MatchMap.MatchRoster | src/utils/matchSimulator.ts:529-530 | the first (at most five) players not in reserve, in roster order |
| MatchMap.WinsSplit | src/utils/matchSimulator.ts:543-547 | every map is won by exactly one of the two teams |
| MatchMap.WinsAppended | src/utils/matchSimulator.ts:543-547 | another map adds one win to the team that won it, and neither team had two wins before it |
| MatchMap.SimulateBestOf3 | src/utils/matchSimulator.ts:519-551 | two or three maps, in the given order, each with a valid score line; exactly one team reaches two wins, and no map is played after it does; every map's records are one per match-roster player of each team, in roster order |
| MatchMap.StickyKastAtMostOne | src/utils/matchSimulator.ts:440-484 | as written, a player's KAST count is a flag set to 1 and never counts past one |
| MatchMap.AsWrittenKastCapped | src/utils/matchSimulator.ts:511 | as written, KAST over a map of 13 or more rounds is at most 8% |
| MatchMap.KastCounterexample | src/utils/matchSimulator.ts:440-511 | a player who counts towards KAST in all 13 rounds of a map gets 8% as written and 100% when rounds are counted |
| MatchMap.CountedKastAllRounds | src/utils/matchSimulator.ts:511 | counting rounds, the KAST count is at most the rounds played, all of them when every round counted, none when no round did |
| MatchMap.CountedKastPercent | src/utils/matchSimulator.ts:511 | counting rounds, KAST lies in [0, 100] and is 100 when every round counted |
| MatchMap.AsWrittenTierCreditCount | src/utils/matchSimulator.ts:443-447 | as written, a player with k kills in the round is credited k times with the tier of k, once per kill event |
| MatchMap.MultiKillCounterexample | src/utils/matchSimulator.ts:443-444 | one double kill is credited twice as written and once as intended |
| MatchMap.CreditRoundMultiKill | src/utils/matchSimulator.ts:443-447 | as intended, a round credits at most one multi-kill tier per player, and exactly one when they got two to five kills |
| FreeAgentGenerator.Tier2Names | src/utils/freeAgentGenerator.ts:13-40 | every region's name pool holds at least 15 names |
| FreeAgentGenerator.DrawIndex | src/utils/freeAgentGenerator.ts:52 | a draw in [0, 1) scaled to a list and floored is a valid index into it |
| FreeAgentGenerator.RandomAge | src/utils/freeAgentGenerator.ts:87-89 | for min <= max the age lies in [min, max] |
| FreeAgentGenerator.PickName | src/utils/freeAgentGenerator.ts:50-53 | the name drawn is from the pool, and is an unused one while unused names remain |
| FreeAgentGenerator.NamesFollowPoolAppend | src/utils/freeAgentGenerator.ts:55-59 | adding an unused pool name, or once the pool is used up either an unused pool name or a used one with the index as suffix, keeps every free agent's name following that rule |
| FreeAgentGenerator.FirstNamesFresh | src/utils/freeAgentGenerator.ts:50-58 | while the pool is not used up every agent takes a fresh pool name: the first k names are k distinct pool names |
| FreeAgentGenerator.PoolExhausted | src/utils/freeAgentGenerator.ts:50-58 | with a pool of distinct names, every agent from index |pool| on is named by a used pool name with its index appended |
| FreeAgentGenerator.GenerateFreeAgentList | src/utils/freeAgentGenerator.ts:44-77 | count free agents of the region, each without contract or team and aged 18 to 24, named by the pool rule: a pool name not yet used, or a used pool name with the index appended |
| FreeAgentGenerator.NewFreeAgent | src/utils/freeAgentGenerator.ts:61-74 | the player carries the name, the region, an age in [18, 24], and no contract and no team |
| FreeAgentGenerator.MeanKeyed | src/utils/freeAgentGenerator.ts:81-82 | each player keyed by the mean of their nine stats, in order |
| FreeAgentGenerator.KeyedByMeanPermutation | src/utils/freeAgentGenerator.ts:80-84 | reordering the keyed list keeps every key the mean of its player |
| FreeAgentGenerator.SortedByMean | src/utils/freeAgentGenerator.ts:80-84 | a sorted keyed list has its players' means non-increasing |
| FreeAgentGenerator.SortByMean | src/utils/freeAgentGenerator.ts:80-84 | the same players, reordered, best mean first |
| FreeAgentGenerator.GenerateTier2FreeAgents | src/utils/freeAgentGenerator.ts:43-85 | count free agents of the region without contract or team, aged 18 to 24, best mean rating first |
| FreeAgentGenerator.RoleCount | src/utils/freeAgentGenerator.ts:106-108 | the count is at most the roster size, and zero exactly when nobody plays the role |
| FreeAgentGenerator.IfNeeded | src/utils/freeAgentGenerator.ts:113-117 | only the role itself, and only when it is missing or underrepresented |
| FreeAgentGenerator.NeededRoles | src/utils/freeAgentGenerator.ts:111-118 | a role is needed exactly when it is not Flex and at most one roster player holds it |
| FreeAgentGenerator.NeededIff | src/utils/freeAgentGenerator.ts:111-118 | any list weighting each role as the loop does (twice if missing, once if single) holds exactly the needed roles |
| FreeAgentGenerator.WithRoles | src/utils/freeAgentGenerator.ts:121-122 | exactly the free agents whose role is needed, no more of them than before |
| FreeAgentGenerator.Without | src/utils/freeAgentGenerator.ts:127-128 | exactly the free agents not already suggested |
| FreeAgentGenerator.SliceTo | src/utils/freeAgentGenerator.ts:123 | a prefix of the list of length min(end, length) for a non-negative end |
| FreeAgentGenerator.WithoutRoles | src/utils/freeAgentGenerator.ts:127-128 | exactly the free agents whose role is not needed |
| FreeAgentGenerator.WithoutAllNeeded | src/utils/freeAgentGenerator.ts:126-129 | when the suggestions hold exactly the needed-role agents, the rest are exactly the other roles' agents |
| FreeAgentGenerator.FilterLengths | src/utils/freeAgentGenerator.ts:121-129 | the needed-role agents and the others together are all the free agents |
| FreeAgentGenerator.WithRolesNoRepeats | src/utils/freeAgentGenerator.ts:121-129 | filtering a list without repeats gives one without repeats |
| FreeAgentGenerator.SliceNoRepeats | src/utils/freeAgentGenerator.ts:123 | a prefix of a list without repeats has none |
| FreeAgentGenerator.NoTopUp | src/utils/freeAgentGenerator.ts:121-126 | enough needed-role agents fill the suggestions on their own |
| FreeAgentGenerator.TopUp | src/utils/freeAgentGenerator.ts:126-131 | topping up with the first other agents gives the suggestions in the intended shape |
| FreeAgentGenerator.GetSuggestedFreeAgents | src/utils/freeAgentGenerator.ts:92-134 | only free agents are suggested, min(max, pool size) of them: first the needed-role agents in pool order, then the other roles' agents; nobody twice |
| FreeAgentGenerator.CountRoles | src/utils/freeAgentGenerator.ts:98-108 | the tally holds every role, each with the number of roster players in it |
| FreeAgentGenerator.ListNeededRoles | src/utils/freeAgentGenerator.ts:111-118 | the list weights each concrete role twice if missing and once if single |
| FreeAgentGenerator.CountStart | src/utils/freeAgentGenerator.ts:98-104 | the zeroed tally counts the empty roster |
| FreeAgentGenerator.CountStep | src/utils/freeAgentGenerator.ts:106-108 | bumping the player's role counts one more player |
| FreeAgentGenerator.RoleCountAppend | src/utils/freeAgentGenerator.ts:106-108 | one more player adds one to their role's count and none to the others |
| FreeAgentGenerator.ConcreteStep | src/utils/freeAgentGenerator.ts:112 | the four roles scanned are concrete and distinct |
| FreeAgentGenerator.NeededListStep | src/utils/freeAgentGenerator.ts:113-117 | one role's push extends the list's weighting to that role |
| FreeAgentGenerator.SameMembers | src/utils/freeAgentGenerator.ts:111-122 | the loop's list and the needed roles hold the same roles |
| FreeAgentGenerator.WithRolesMembers | src/utils/freeAgentGenerator.ts:122 | filtering by two role lists with the same members gives the same agents |
| FreeAgentGenerator.AppendNoRepeats | src/utils/freeAgentGenerator.ts:130 | appending agents not already suggested keeps the suggestions free of repeats |
| PlayerGenerator.RandomInRange | src/utils/playerGenerator.ts:4-6 | for min <= max the result lies in [min, max] |
| PlayerGenerator.DrawTimesWidth | src/utils/playerGenerator.ts:5 | a draw in [0, 1) scaled by a width of at least 1 stays below the width |
| PlayerGenerator.RandomInRangeHits | src/utils/playerGenerator.ts:4-6 | every value of [min, max] is produced by some draw in [0, 1) |
| PlayerGenerator.StatIndex | src/utils/playerGenerator.ts:50-60 | each stat has its own one of the nine draws, in the order the stats are generated |
| PlayerGenerator.GeneratedStat | src/utils/playerGenerator.ts:51-59 | a stat lies between the tier's minimum and 100, within the tier's range shifted by the role's modifier and capped at 100; stamina gets no modifier |
| PlayerGenerator.GeneratePlayerStats | src/utils/playerGenerator.ts:9-61 | every stat is generated from its own draw, lies in [tier minimum, 100] and in the role-shifted, capped tier range; stamina stays in the tier range |
| PlayerGenerator.FlexStatsInTierRange | src/utils/playerGenerator.ts:43-45 | a Flex player's stats all lie in the plain tier range |
| PlayerGenerator.RoleAgentsFacts | src/utils/playerGenerator.ts:68-74 | the agent lists partition the agents by role, Flex has none, no list repeats an agent and each holds at least six |
| PlayerGenerator.RoleListLength | src/utils/playerGenerator.ts:87-100 | a reordered role list keeps at least six agents, enough for any slice taken |
| PlayerGenerator.FlexProficiency | src/utils/playerGenerator.ts:91-93 | a Flex proficiency lies in [50, 90], and in [70, 90] for the first agent of a role |
| PlayerGenerator.AddFlexRole | src/utils/playerGenerator.ts:85-95 | one chosen role adds exactly `FlexRoleEntries`: the first `RandomInRange(2, 4)` agents of its shuffled list, distinct, each with its own `FlexProficiency` draw (70-90 for the first, 50-75 after) |
| PlayerGenerator.FlexShapeExtend | src/utils/playerGenerator.ts:84-96 | adding a new role's agents keeps every pool agent from a chosen role, every chosen role represented and no agent twice |
| PlayerGenerator.GenerateFlexPool | src/utils/playerGenerator.ts:78-96 | the pool is exactly `FlexPool` of the first two or three shuffled role lists: each chosen role's `FlexRoleEntries` in turn, each drawing where the previous stopped; so its agents come from the chosen roles, each represented, none twice, with proficiencies in [50, 90], four to twelve agents in all |
| PlayerGenerator.BaseProficiency | src/utils/playerGenerator.ts:104-107 | the base proficiency lies in [50, 95] for every tier |
| PlayerGenerator.PoolSize | src/utils/playerGenerator.ts:99 | S and A tiers get three to five agents, B and C two to four |
| PlayerGenerator.AsWrittenProficiency | src/utils/playerGenerator.ts:102-112 | as written, each agent's proficiency, from its own base draw, lies in [50, 95] |
| PlayerGenerator.GenerateRolePoolAsWritten | src/utils/playerGenerator.ts:99-112 | as written, the first agents of the shuffled role list, distinct, each with its own freshly drawn base proficiency |
| PlayerGenerator.AsWrittenStep | src/utils/playerGenerator.ts:104-111 | one loop step as written gives the agent the as-written proficiency |
| PlayerGenerator.FirstAgentNotBest | src/utils/playerGenerator.ts:104-110 | as written, an S-tier first agent can get 80 while the second gets 90, so the first is not the best |
| PlayerGenerator.IntendedProficiency | src/utils/playerGenerator.ts:109-111 | with one base drawn per pool, every agent's proficiency lies in [50, 95] and at most the base, which the first agent gets |
| PlayerGenerator.IntendedStep | src/utils/playerGenerator.ts:110-111 | one loop step with a shared base gives the agent the intended proficiency |
| PlayerGenerator.GenerateRolePool | src/utils/playerGenerator.ts:97-112 | the first agents of the shuffled role list, distinct and of the player's role; the first has the highest proficiency, all in [50, 95] |
| PlayerGenerator.GenerateAgentPool | src/utils/playerGenerator.ts:64-116 | the pool is `PoolDrawn`: no agent twice (the code's pool is keyed by agent); a Flex pool is exactly `FlexPool` of the two or three chosen roles' shuffled lists, with the chosen roles' shape; any other role's pool is the first tier-sized part of the shuffled role list with `IntendedProficiency`, one base proficiency for the pool (the intended rule; see Left out) |
| PlayerGenerator.PoolDrawnFacts | src/utils/playerGenerator.ts:64-116 | a drawn single-role pool holds only the role's agents, in [50, 95], none above the first; a drawn Flex pool lies in [50, 90] |
| PlayerGenerator.ToLower | src/utils/playerGenerator.ts:127 | lower-casing leaves no upper-case letter and keeps whitespace as whitespace |
| PlayerGenerator.LowerCase | src/utils/playerGenerator.ts:127 | the same length, each character lower-cased |
| PlayerGenerator.CollapseWhitespace | src/utils/playerGenerator.ts:127 | no longer than the input; only hyphens and the input's non-whitespace characters remain |
| PlayerGenerator.Slug | src/utils/playerGenerator.ts:127 | the id holds no whitespace and no upper-case letter |
| PlayerGenerator.CollapseNoWhitespace | src/utils/playerGenerator.ts:127 | text without whitespace is left as it is |
| PlayerGenerator.LowerCaseNoUpper | src/utils/playerGenerator.ts:127 | text without upper-case letters is left as it is |
| PlayerGenerator.SlugIdempotent | src/utils/playerGenerator.ts:127 | the id of an id is the id itself |
| PlayerGenerator.CollapseAppend | src/utils/playerGenerator.ts:127 | collapsing a concatenation collapses each part, carrying whether a run is open |
| PlayerGenerator.CollapseRun | src/utils/playerGenerator.ts:127 | a whitespace run becomes one hyphen, or nothing when it continues an open run |
| PlayerGenerator.LowerCaseAppend | src/utils/playerGenerator.ts:127 | lower-casing distributes over concatenation |
| PlayerGenerator.SlugJoinsWords | src/utils/playerGenerator.ts:127 | two words separated by any whitespace become the lower-cased words joined by one hyphen |
| PlayerGenerator.AgeOrRandom | src/utils/playerGenerator.ts:129 | a given non-zero age is kept; otherwise the age is drawn from [18, 28] |
| PlayerGenerator.GeneratePlayer | src/utils/playerGenerator.ts:119-138 | the player's id is the slug of the name; role and preferred role agree; no synergies, map proficiency, contract or team; the age rule; stats are `GeneratePlayerStats` from the draw after the age (so stamina stays in the tier range and each stat carries its role shift); the pool is `PoolDrawn` nine draws later, a single role's pool with one base proficiency (the intended rule; see Left out) |
| PlayerGenerator.NewPlayer | src/utils/playerGenerator.ts:126-137 | the record assembled once the age is known: slug id, name, age, region, the role as role and preferred role, stats exactly `GeneratePlayerStats` from its first draw, the pool `PoolDrawn` nine draws later, and no synergies, map proficiency, contract or team |
| PlayerGenerator.GetTeamTier | src/utils/playerGenerator.ts:141-150 | the listed elite teams are S, the listed good ones A, any other team B exactly when the draw exceeds 0.5 and C otherwise |
| PlayerGenerator.OverrideStats | src/utils/playerGenerator.ts:170 | every overridden stat takes the given value, every other the default |
| PlayerGenerator.CreateCustomPlayer | src/utils/playerGenerator.ts:153-175 | slug id, name, age, region and role as given; the stats are the generated S-tier stats with each given stat put in its place, so a given stat is kept and any other lies in [75, 100]; the given agent pool; no synergies, map proficiency, contract or team |
| Sorting.RanksAboveTotal | src/components/StandingsView.tsx:88-97 | any two sort keys are comparable: one ranks at or above the other |
| Sorting.RanksAboveTransitive | src/components/StandingsView.tsx:88-97 | ranking at or above is transitive on keys of one length |
| Sorting.RanksAboveSingle | src/utils/freeAgentGenerator.ts:80-84 | on a single-component key, ranking at or above is `>=` |
| Sorting.InsertPermutes | src/components/StandingsView.tsx:88 | inserting adds exactly the one item |
| Sorting.HeadRanksAbove | src/components/StandingsView.tsx:88-97 | the head of a sorted sequence ranks at or above every later item |
| Sorting.ConsSorted | src/components/StandingsView.tsx:88-97 | prepending an item that ranks at or above a sorted tail keeps it sorted |
| Sorting.InsertSorted | src/components/StandingsView.tsx:88-97 | inserting into a sorted sequence keeps it sorted |
| Sorting.SortDescending | src/components/StandingsView.tsx:88-97 | the result is sorted highest rank first and is a permutation of the input |
| Sorting.SplitLast | src/components/StandingsView.tsx:88 | a non-empty sequence is its front plus its last item, as multisets |
| Sorting.Items | src/components/StandingsView.tsx:83-88 | the items of the keyed entries, one per entry, in order |
| Sorting.ItemsAppend | src/components/StandingsView.tsx:83-88 | taking items distributes over concatenation |
| Sorting.InsertItems | src/components/StandingsView.tsx:88 | inserting an entry adds exactly its item to the items |
| Sorting.SortItemsPermutation | src/utils/freeAgentGenerator.ts:80-84 | sorting neither adds nor drops an item |
| Types.RoundWithin | src/utils/matchSimulator.ts:505-511 | Math.round keeps a value within any integer interval holding it |
| Types.ClampWithin | src/utils/playerDevelopment.ts:254 | clamping lands in [lo, hi] and leaves values already there unchanged |
| Types.Stats.Set | src/utils/playerDevelopment.ts:77 | the stat written takes the new value and every other stat keeps its old one |
| Types.AllStatKeysComplete | src/utils/playerDevelopment.ts:68 | the list of stat keys holds every stat |
| Types.StatsExtensional | src/types/types.ts:19-29 | two stat blocks agreeing on every stat are equal |
| Types.ActivePlayers | src/hooks/useGame.tsx:110 | exactly the roster players not in reserve, no more than the roster |
| Types.ReservePlayers | src/hooks/useGame.tsx:182 | exactly the reserve players; with the active ones they make up the roster |
| Types.NatToString | src/utils/freeAgentGenerator.ts:57 | a non-empty string of decimal digits |
| Types.NatToStringInjective | src/utils/freeAgentGenerator.ts:57 | different numbers render differently |

## Left out

- Persistence: `localStorage` saving and loading in `src/hooks/useGame.tsx` is I/O and is not modelled. So are the `alert` messages there: a refused transition returns the state unchanged.
- `Date.now()` ids and timestamps are wall-clock values. The model leaves them out or takes them as parameters.
- React rendering in `StandingsView.tsx` and `Dashboard.tsx`, and the display helpers, are presentation. This covers `getContractStatusColor`, `formatSalary` with its `toFixed`, and `getObjectiveLabel` and `getObjectiveDescription` of `scrimSimulator.ts:291-320`.
- The lookup of the player's own standing (`StandingsView.tsx:106`) only feeds the view and is not modelled.
- Static tables are inputs to the operations that read them: the team and agent tables of `src/data/gameData.ts` and the elite-player table of `src/utils/elitePlayers.ts`.
- `Math.random()` is modelled as an arbitrary draw in [0, 1). The model states no probabilities or distributions. The shuffles `sort(() => Math.random() - 0.5)` are arbitrary permutations supplied by the caller. Player generation receives one per generated player and role.
- Array.prototype.sort is modelled as a stable sort by the comparator's keys. The model assumes the comparator is a consistent order. Floating-point rounding in the comparator's differences is not modelled.
- JavaScript numbers are unbounded reals and integers here. Floating-point rounding is not modelled. Division by zero does not arise: every division the model performs has a non-zero divisor, stated in its precondition.
- initializeDevelopment (`playerDevelopment.ts:282-292`) seeds morale, form and potential for the views. It is not modelled. Players carry those attributes as plain fields.
- Clutch, plant and defuse statistics are declared in `src/types/types.ts` but never filled by the simulator. Their fields stay at zero in the model as in the code.
- The team of the player is built by the same team construction as every other team. The game's initial team selection is a view and is not modelled.
- Object identity is not modelled. The code finds players by id and teams by name, and the model compares by those keys or by value; it does not model aliasing of shared objects.
- MatchRound.CalculateTeamStrength, MatchRound.SimulateRound, MatchMap.SimulateMap, MatchMap.SimulateBestOf3: they require non-empty rosters with distinct player ids. The code divides by zero and takes the maximum of nothing on an empty roster.
- PlayerGenerator.CreateCustomPlayer: the code's record has no status, contract or team field (`src/utils/playerGenerator.ts:163-174`); the model's `Player` always has them, so it fills in `Unassigned` and no contract or team, as for a generated player.
- GameState.MoveToReserveKeepsLimits, GameState.MoveToActiveKeepsLimits: require distinct player ids. The code's status update changes every player with the id (`src/hooks/useGame.tsx:190-192`), so a roster with a repeated id can pass the limit checks and still end with six active players; the model keeps that behaviour and proves the limits only for distinct ids.
- MatchRound.SimulateKill: always advances the cursor by four draws. When a side's weights sum to 0 the code returns its first player without calling `Math.random()` (`src/utils/matchSimulator.ts:248`), so it uses fewer draws there. The chosen players are the same; only the position of later draws in the stream differs.
- MatchRound.GetRandomWeightedPlayer: requires a non-empty team. On an empty one the code returns `undefined`, which no caller can receive from a non-empty round.
- MatchMap.PlayRoundSides, MatchMap.PlayMapRound, MatchMap.NextRound, MatchMap.PlayRounds: they require non-empty rosters with distinct player ids, for the same reason as `MatchMap.SimulateMap`, whose loop they are.
- MatchMap.UpdatePerformancesFromRound: requires distinct player ids on the roster. The code finds a record by id with `findIndex`, so a repeated id would credit only the first record.
- ScrimSimulator.SimulateScrim, ScrimSimulator.CollectImprovements: they require every composition slot to name a rostered player. The code asserts this with a non-null `!` at `src/utils/scrimSimulator.ts:130` and fails otherwise.
- FreeAgentGenerator.PickName: the do-while that redraws a used name ends only with probability one, so the model bounds it by `fuel` and returns `None` when the fuel runs out.
- FreeAgentGenerator.GenerateFreeAgentList, FreeAgentGenerator.GenerateTier2FreeAgents: they inherit the fuel bound and state their promises for a `Some` result only.
- FreeAgentGenerator.GenerateTier2FreeAgents: states count, shape and order but not the naming rule after the sort. `FreeAgentGenerator.GenerateFreeAgentList` states that rule before sorting.
- FreeAgentGenerator.NamesFollowPoolAppend: a name with a numeric suffix might coincide with a name in the pool. The model does not rule such collisions out, and neither does the code.
- MatchMap.CreditAssists, MatchMap.UpdatePerformancesFromRound: they state that an assist goes only to an eligible player on a won round. They do not state the draw threshold `support / 150` that decides it.
- MatchMap.UpdatePerformancesFromRound: credits a round by the intended KAST and multi-kill rules, not as `src/utils/matchSimulator.ts:440-484` is written. It adds one to the KAST round count where the code sets the entry to 1, and it credits one multi-kill tier per round where the code credits the tier once per kill event. The as-written rules are `MatchMap.StickyKast` and `MatchMap.AsWrittenTierCredit`, compared under Findings.
- MatchMap.SimulateMap: inherits those rules through `MatchMap.PlayRounds` and `MatchMap.PlayMapRound`, so its KAST percentages and multi-kill counters are the intended ones, not the code's.
- PlayerGenerator.GenerateAgentPool: builds a single role's pool with `PlayerGenerator.GenerateRolePool`, one base proficiency per pool, not with the per-agent draw of `src/utils/playerGenerator.ts:102-112`, which is `PlayerGenerator.GenerateRolePoolAsWritten`, compared under Findings.
- PlayerGenerator.GeneratePlayer: inherits that pool, so its first agent is the best; the code as written does not promise this.
- MatchMap.SimulateMap: states the score line and the range of every finalized statistic. Each record's exact counters are stated round by round by `MatchMap.UpdatePerformancesFromRound`, not summed over the map.
- PlayerGenerator.Slug: lower-casing covers the ASCII letters only. JavaScript's `toLowerCase` folds all of Unicode, and `\s` matches Unicode whitespace.
- Standings.MatchCredit: it credits a match's map and round margins as one net amount per side. The code adds them map by map. The totals are equal.
- TeamUtils.TeamCache.GetCachedTeam: the JavaScript `Map` is a Dafny `map` keyed by `region-name`. `TeamUtils.CacheKeyInjective` proves that the keys of different (region, name) pairs differ.

## Findings

| source | as written | input that shows it | evidently intended | confidence | as-written member | corrected member |
|---|---|---|---|---|---|---|
| src/utils/matchSimulator.ts:440-511 | the KAST entry is set to 1 whenever a round counts, and never incremented or reset, so `kastCount / totalRounds` uses a count of at most one round | a player who gets a kill in every one of 13 rounds gets KAST round(100/13) = 8% | count the rounds that had a kill, assist, survival or trade, giving 100% for that player | not executed | MatchMap.StickyKastAtMostOne, MatchMap.AsWrittenKastCapped, MatchMap.KastCounterexample | MatchMap.CloseRound, MatchMap.CountedKastAllRounds, MatchMap.CountedKastPercent |
| src/utils/matchSimulator.ts:443-447 | the multi-kill tier check runs inside the per-kill loop, so a player with k kills in the round is credited k times with the tier of k | one double kill in a round adds 2 to `doubleKills` | credit one multi-kill of the player's tier per round | not executed | MatchMap.AsWrittenTierCreditCount, MatchMap.MultiKillCounterexample | MatchMap.CloseRound, MatchMap.CreditRoundMultiKill |
| src/utils/playerGenerator.ts:102-112 | `baseProficiency` is drawn anew for every agent of the pool, so a later agent can outrank the first | S tier, first base draw giving 80, second agent's base draw giving 95 less 5: the first agent has 80, the second 90 | one base per pool: the first agent is the best, the others lower | not executed | PlayerGenerator.GenerateRolePoolAsWritten, PlayerGenerator.FirstAgentNotBest | PlayerGenerator.GenerateRolePool |
