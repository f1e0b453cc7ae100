/** Shared data model of the life simulator: the enums and records that the
    rule engine passes around.  Every record is a value; the game state that
    the hooks update in place lives in GameStateHook. */
module Types {

  datatype Option<+T> = None | Some(value: T) {
    function GetOr(default: T): T {
      match this
      case Some(v) => v
      case None => default
    }
  }

  datatype Result<+T, +E> = Ok(value: T) | Err(error: E)

  // ---------------------------------------------------------------- enums

  datatype LifeStage = Childhood | Student | YoungAdult | Adult | MiddleAge | Elderly

  /** Education levels; their order is fixed primary < ... < doctor. */
  datatype EducationLevel = Primary | MiddleSchool | HighSchool | Bachelor | MasterDegree | Doctorate

  /** Career levels; their order is fixed entry < ... < master. */
  datatype CareerLevel = Entry | Junior | Intermediate | Senior | Expert | Master

  datatype MaritalStatus = Single | Dating | Married | Divorced

  datatype PersonType = Parent | Sibling | Friend | Partner | Child | Colleague

  /** The five event types, plus a tag that reached an event only through an
      unchecked cast of AI output. */
  datatype EventType = Opportunity | Challenge | Daily | Special | Stage | Unlisted(tag: string)

  datatype LogKind = EventLog | ChoiceLog | StageLog | AchievementLog | SystemLog

  /** The six keys of the attribute record. */
  datatype AttrKey = Health | Intelligence | Charm | Wealth | Happiness | Stress

  // -------------------------------------------------------------- records

  datatype Attributes = Attributes(health: real, intelligence: real, charm: real,
                                   wealth: real, happiness: real, stress: real)
  {
    function Get(k: AttrKey): real {
      match k
      case Health => health
      case Intelligence => intelligence
      case Charm => charm
      case Wealth => wealth
      case Happiness => happiness
      case Stress => stress
    }

    function Set(k: AttrKey, v: real): (r: Attributes)
      ensures r.Get(k) == v
      ensures forall j :: j != k ==> r.Get(j) == Get(j)
    {
      match k
      case Health => this.(health := v)
      case Intelligence => this.(intelligence := v)
      case Charm => this.(charm := v)
      case Wealth => this.(wealth := v)
      case Happiness => this.(happiness := v)
      case Stress => this.(stress := v)
    }
  }

  /** The five attributes that the game keeps within [0, 100]. */
  predicate Bounded(k: AttrKey) {
    k != Wealth
  }

  datatype PersonTraits = PersonTraits(intelligence: real, charm: real, wealth: real)

  datatype Person = Person(id: string, name: string, kind: PersonType,
                           relationship: string, traits: PersonTraits)

  /** A person before the service gives it an id and a type. */
  datatype PersonDraft = PersonDraft(name: string, relationship: string, traits: PersonTraits)

  /** Static career definition; `requirements` stands for the untyped extra
      requirements, which no code inspects. */
  datatype Career = Career(id: string, name: string, category: string, baseSalary: real,
                           educationRequired: EducationLevel, maxLevel: int,
                           requirements: Option<string>)

  datatype EffectKind = AttributeEffect | WealthEffect

  datatype Effect = Effect(kind: EffectKind, attribute: Option<AttrKey>, value: real)

  datatype Requirement = Requirement(attribute: Option<AttrKey>, minValue: Option<real>,
                                     maxValue: Option<real>)

  datatype Choice = Choice(id: string, text: string, effects: seq<Effect>,
                           requirements: Option<seq<Requirement>>)

  datatype AgeRange = AgeRange(min: Option<int>, max: Option<int>)

  datatype AttributeRange = AttributeRange(key: AttrKey, min: Option<real>, max: Option<real>)

  datatype Condition = Condition(age: Option<AgeRange>, stage: Option<seq<LifeStage>>,
                                 attribute: Option<AttributeRange>)

  datatype Event = Event(id: string, kind: EventType, title: string, description: string,
                         choices: seq<Choice>, conditions: Option<seq<Condition>>,
                         aiGenerated: bool)

  /** A passive record (property, vehicle, investment, achievement); the rule
      engine only carries these along. */
  datatype Holding = Holding(id: string, name: string)

  datatype Player = Player(
    name: string,
    age: nat,
    stage: LifeStage,
    attributes: Attributes,
    education: EducationLevel,
    career: Option<Career>,
    careerLevel: CareerLevel,
    maritalStatus: MaritalStatus,
    partner: Option<Person>,
    children: seq<Person>,
    parents: seq<Person>,
    friends: seq<Person>,
    properties: seq<Holding>,
    vehicles: seq<Holding>,
    investments: seq<Holding>,
    achievements: seq<Holding>,
    currentEvent: Option<Event>,
    eventHistory: seq<Event>,
    choices: seq<Choice>,
    startDate: int,
    lastSaveDate: int)

  datatype LogEntry = LogEntry(id: string, timestamp: int, kind: LogKind, message: string)

  // ------------------------------------------------------- fixed orders

  const EducationOrder: seq<EducationLevel> :=
    [Primary, MiddleSchool, HighSchool, Bachelor, MasterDegree, Doctorate]

  /** `educationOrder.indexOf(level)`: every level occurs, so it is never -1. */
  function EducationIndex(e: EducationLevel): (i: nat)
    ensures i < |EducationOrder| && EducationOrder[i] == e
  {
    match e
    case Primary => 0
    case MiddleSchool => 1
    case HighSchool => 2
    case Bachelor => 3
    case MasterDegree => 4
    case Doctorate => 5
  }

  const LevelOrder: seq<CareerLevel> := [Entry, Junior, Intermediate, Senior, Expert, Master]

  /** `levelOrder.indexOf(level)`: every level occurs, so it is never -1. */
  function LevelIndex(l: CareerLevel): (i: nat)
    ensures i < |LevelOrder| && LevelOrder[i] == l
  {
    match l
    case Entry => 0
    case Junior => 1
    case Intermediate => 2
    case Senior => 3
    case Expert => 4
    case Master => 5
  }

  /** The string value of each enum member, as interpolated into log lines. */
  function EducationName(e: EducationLevel): string {
    match e
    case Primary => "primary"
    case MiddleSchool => "middle"
    case HighSchool => "high"
    case Bachelor => "bachelor"
    case MasterDegree => "master"
    case Doctorate => "doctor"
  }

  function LevelName(l: CareerLevel): string {
    match l
    case Entry => "entry"
    case Junior => "junior"
    case Intermediate => "middle"
    case Senior => "senior"
    case Expert => "expert"
    case Master => "master"
  }

  // ------------------------------------------------------------ numbers

  function Min(a: real, b: real): real { if a <= b then a else b }
  function Max(a: real, b: real): real { if a >= b then a else b }

  function DigitChar(d: nat): char
    requires d < 10
  {
    ('0' as int + d) as char
  }

  /** The number a string of decimal digits denotes. */
  function DigitsValue(s: string): int {
    if s == [] then 0
    else DigitsValue(s[..|s| - 1]) * 10 + (s[|s| - 1] as int - '0' as int)
  }

  /** Decimal rendering of a natural number, as template literals print it. */
  function NatToString(n: nat): (s: string)
    ensures |s| > 0
    ensures forall i :: 0 <= i < |s| ==> '0' <= s[i] <= '9'
    ensures DigitsValue(s) == n
    ensures n > 0 ==> s[0] != '0'
    decreases n
  {
    if n < 10 then [DigitChar(n)]
    else
      var s := NatToString(n / 10) + [DigitChar(n % 10)];
      assert s[..|s| - 1] == NatToString(n / 10);
      s
  }
}
