/** Shared data model of the roster-management game: the entities that the
    match engine, the contract and development rules, the scrim rules, the
    schedule builder and the game-state container pass between each other,
    plus the numeric helpers (JavaScript's Math.round, min/max clamps) and the
    injected source of random draws. */
module Types {

  datatype Option<T> = None | Some(value: T)

  /** A thrown error or a value. */
  datatype Result<T> = Ok(value: T) | Err(message: string)

  // ---------------------------------------------------------------------
  // Numeric helpers
  // ---------------------------------------------------------------------

  /** JavaScript's Math.round on a finite number: round half up. */
  function Round(x: real): int
  {
    (x + 0.5).Floor
  }

  function MinR(a: real, b: real): real { if a <= b then a else b }
  function MaxR(a: real, b: real): real { if a >= b then a else b }

  /** x clamped to [lo, hi]. */
  function Clamp(x: real, lo: real, hi: real): real
  {
    MaxR(lo, MinR(hi, x))
  }

  /** Math.round never leaves an integer interval that contains its argument. */
  lemma RoundWithin(x: real, lo: int, hi: int)
    requires lo as real <= x <= hi as real
    ensures lo <= Round(x) <= hi
  {
    assert (lo as real + 0.5).Floor == lo;
    assert (hi as real + 0.5).Floor == hi;
  }

  lemma ClampWithin(x: real, lo: real, hi: real)
    requires lo <= hi
    ensures lo <= Clamp(x, lo, hi) <= hi
    ensures lo <= x <= hi ==> Clamp(x, lo, hi) == x
  {
  }

  // ---------------------------------------------------------------------
  // Injected randomness: every Math.random() call of the game is one draw
  // rand(cursor) of a stream, and the cursor is threaded through.
  // ---------------------------------------------------------------------

  type DrawStream = nat -> real

  ghost predicate ValidStream(rand: DrawStream)
  {
    forall k: nat :: 0.0 <= rand(k) < 1.0
  }

  // ---------------------------------------------------------------------
  // Enumerations
  // ---------------------------------------------------------------------

  datatype Region = Americas | EMEA | Pacific | China

  datatype Role = Duelist | Initiator | Controller | Sentinel | Flex

  datatype MapName =
    Ascent | Split | Haven | Bind | Icebox | Breeze | Fracture | Pearl | Lotus | Sunset | Abyss

  datatype Agent =
    // Duelists
    | Jett | Phoenix | Reyna | Raze | Yoru | Neon | Iso
    // Controllers
    | Brimstone | Viper | Omen | Astra | Harbor | Clove
    // Initiators
    | Sova | Breach | Skye | KayO | Fade | Gekko | Tejo
    // Sentinels
    | Sage | Cypher | Killjoy | Chamber | Deadlock | Vyse

  /** Roster status; a player who was never signed has none. */
  datatype Status = Unassigned | Active | Reserve

  // ---------------------------------------------------------------------
  // Player statistics: nine values, each nominally 0-100
  // ---------------------------------------------------------------------

  datatype StatKey = Mechanics | Igl | Mental | Clutch | Vibes | Lurking | Entry | Support | Stamina

  /** The stat keys in declaration order (the order of Object.keys). */
  const AllStatKeys: seq<StatKey> :=
    [Mechanics, Igl, Mental, Clutch, Vibes, Lurking, Entry, Support, Stamina]

  datatype Stats = Stats(
    mechanics: real, igl: real, mental: real, clutch: real, vibes: real,
    lurking: real, entry: real, support: real, stamina: real)
  {
    function Get(k: StatKey): real
    {
      match k
      case Mechanics => mechanics
      case Igl => igl
      case Mental => mental
      case Clutch => clutch
      case Vibes => vibes
      case Lurking => lurking
      case Entry => entry
      case Support => support
      case Stamina => stamina
    }

    /** The stats with key k set to v. */
    function Set(k: StatKey, v: real): (r: Stats)
      ensures r.Get(k) == v
      ensures forall k' :: k' != k ==> r.Get(k') == Get(k')
    {
      match k
      case Mechanics => this.(mechanics := v)
      case Igl => this.(igl := v)
      case Mental => this.(mental := v)
      case Clutch => this.(clutch := v)
      case Vibes => this.(vibes := v)
      case Lurking => this.(lurking := v)
      case Entry => this.(entry := v)
      case Support => this.(support := v)
      case Stamina => this.(stamina := v)
    }

    function Total(): real
    {
      mechanics + igl + mental + clutch + vibes + lurking + entry + support + stamina
    }

    /** Every stat lies in [lo, hi]. */
    predicate Within(lo: real, hi: real)
    {
      forall k :: lo <= Get(k) <= hi
    }
  }

  lemma AllStatKeysComplete(k: StatKey)
    ensures k in AllStatKeys
  {
  }

  lemma StatsExtensional(a: Stats, b: Stats)
    requires forall k :: a.Get(k) == b.Get(k)
    ensures a == b
  {
    assert a.Get(Mechanics) == b.Get(Mechanics) && a.Get(Igl) == b.Get(Igl);
    assert a.Get(Mental) == b.Get(Mental) && a.Get(Clutch) == b.Get(Clutch);
    assert a.Get(Vibes) == b.Get(Vibes) && a.Get(Lurking) == b.Get(Lurking);
    assert a.Get(Entry) == b.Get(Entry) && a.Get(Support) == b.Get(Support);
    assert a.Get(Stamina) == b.Get(Stamina);
  }

  // ---------------------------------------------------------------------
  // Players and teams
  // ---------------------------------------------------------------------

  datatype Contract = Contract(
    salary: int,
    yearsRemaining: int,
    totalYears: Option<int>,
    buyoutClause: Option<int>)

  /** One entry of a player's agent pool (an object key and its value). */
  datatype AgentEntry = AgentEntry(agent: Agent, proficiency: real)

  datatype Synergy = Synergy(playerId: string, value: real)

  /** A player. The development attributes (potential, morale, form,
      development) are 0 for a player they were never initialised on. */
  datatype Player = Player(
    id: string,
    name: string,
    age: int,
    region: Region,
    role: Role,
    preferredRole: Role,
    stats: Stats,
    contract: Option<Contract>,
    teamId: Option<string>,
    agentPool: seq<AgentEntry>,
    synergies: seq<Synergy>,
    mapProficiency: map<MapName, real>,
    status: Status,
    potential: real,
    morale: real,
    form: real,
    development: real)

  datatype Team = Team(
    id: string,
    name: string,
    shortName: string,
    region: Region,
    roster: seq<Player>,
    budget: int,
    wins: int,
    losses: int,
    mapDifferential: int,
    roundDifferential: int,
    mapPracticeLevel: map<MapName, real>)

  /** The player is not a reserve. */
  predicate IsActive(p: Player) { p.status != Reserve }

  /** The players of `roster` that are not reserves, in roster order. */
  function ActivePlayers(roster: seq<Player>): (r: seq<Player>)
    ensures |r| <= |roster|
    ensures forall p :: p in r <==> p in roster && IsActive(p)
  {
    if roster == [] then []
    else if IsActive(roster[0]) then [roster[0]] + ActivePlayers(roster[1..])
    else ActivePlayers(roster[1..])
  }

  /** The players of `roster` that are reserves. */
  function ReservePlayers(roster: seq<Player>): (r: seq<Player>)
    ensures |r| + |ActivePlayers(roster)| == |roster|
    ensures forall p :: p in r <==> p in roster && p.status == Reserve
  {
    if roster == [] then []
    else if IsActive(roster[0]) then ReservePlayers(roster[1..])
    else [roster[0]] + ReservePlayers(roster[1..])
  }

  /** No two players share an id. */
  predicate DistinctIds(ps: seq<Player>)
  {
    forall i, j :: 0 <= i < j < |ps| ==> ps[i].id != ps[j].id
  }

  // ---------------------------------------------------------------------
  // Map and match results
  // ---------------------------------------------------------------------

  datatype TeamTag = TeamA | TeamB

  datatype PlayerMapPerformance = PlayerMapPerformance(
    playerId: string,
    playerName: string,
    agent: Agent,
    kills: int,
    deaths: int,
    assists: int,
    acs: int,
    kd: real,
    adr: int,
    kast: int,
    kpr: real,
    apr: real,
    fkpr: real,
    fdpr: real,
    firstKills: int,
    firstDeaths: int,
    doubleKills: int,
    tripleKills: int,
    quadraKills: int,
    aceKills: int,
    clutchesWon: int,
    clutchesPlayed: int,
    clutchSuccessRate: real,
    econRating: int)

  datatype MapResult = MapResult(
    mapName: MapName,
    teamAScore: int,
    teamBScore: int,
    winner: TeamTag,
    teamAAttackRounds: int,
    teamADefenseRounds: int,
    teamBAttackRounds: int,
    teamBDefenseRounds: int,
    teamAPerformances: seq<PlayerMapPerformance>,
    teamBPerformances: seq<PlayerMapPerformance>,
    totalRounds: int,
    overtime: bool,
    overtimeRounds: Option<int>)

  datatype Stage = Stage1 | Stage2 | Playoffs

  /** A scheduled match. `maps` and `winner` are absent until it is played. */
  datatype Match = Match(
    id: string,
    week: int,
    teamA: Team,
    teamB: Team,
    maps: Option<seq<MapResult>>,
    winner: Option<Team>,
    stage: Stage)

  // ---------------------------------------------------------------------
  // Strings
  // ---------------------------------------------------------------------

  function DigitChar(d: nat): char
    requires d < 10
  {
    "0123456789"[d]
  }

  /** Decimal rendering of a natural number, as in a template literal. */
  function NatToString(n: nat): (s: string)
    ensures |s| >= 1
    ensures forall i :: 0 <= i < |s| ==> '0' <= s[i] <= '9'
    decreases n
  {
    if n < 10 then [DigitChar(n)] else NatToString(n / 10) + [DigitChar(n % 10)]
  }

  lemma {:induction false} NatToStringInjective(m: nat, n: nat)
    requires NatToString(m) == NatToString(n)
    ensures m == n
    decreases m + n
  {
    var sm, sn := NatToString(m), NatToString(n);
    if m < 10 && n < 10 {
      assert sm[0] == DigitChar(m) && sn[0] == DigitChar(n);
    } else if m >= 10 && n >= 10 {
      assert sm[|sm| - 1] == DigitChar(m % 10);
      assert sn[|sn| - 1] == DigitChar(n % 10);
      assert m % 10 == n % 10;
      assert NatToString(m / 10) == sm[..|sm| - 1] == sn[..|sn| - 1] == NatToString(n / 10);
      NatToStringInjective(m / 10, n / 10);
    }
  }
}
