/** Career helpers (src/utils/careerUtils.ts): the education gate before a
    career switch, experience years, the advancement check and the ±10%
    income range. */
module CareerUtils {
  import opened Types
  import CareerService

  /** getCareerLevelName over CAREER_LEVEL_NAMES (a parameter here): the
      table's name, or the enum's own value when it has none. */
  function GetCareerLevelName(names: map<CareerLevel, string>, level: CareerLevel): (name: string)
    ensures level in names && names[level] != "" ==> name == names[level]
    ensures level !in names || names[level] == "" ==> name == LevelName(level)
    ensures name != ""
  {
    if level in names && names[level] != "" then names[level] else LevelName(level)
  }

  /** canChangeCareer: the same education gate, written over the enum's
      string values. */
  function CanChangeCareer(player: Player, newCareer: Career): (ok: bool)
    ensures ok <==> EducationIndex(player.education) >= EducationIndex(newCareer.educationRequired)
  {
    var educationOrder := ["primary", "middle", "high", "bachelor", "master", "doctor"];
    var playerLevel := IndexOf(educationOrder, EducationName(player.education));
    var requiredLevel := IndexOf(educationOrder, EducationName(newCareer.educationRequired));
    NameIndex(player.education);
    NameIndex(newCareer.educationRequired);
    playerLevel >= requiredLevel
  }

  /** `Array.prototype.indexOf`: the first position of `x`, or -1. */
  function IndexOf(s: seq<string>, x: string): (i: int)
    ensures -1 <= i < |s|
    ensures i >= 0 ==> s[i] == x && forall j :: 0 <= j < i ==> s[j] != x
    ensures i == -1 ==> x !in s
  {
    if s == [] then -1
    else if s[0] == x then 0
    else
      var k := IndexOf(s[1..], x);
      if k == -1 then -1 else k + 1
  }

  lemma NameIndex(e: EducationLevel)
    ensures IndexOf(["primary", "middle", "high", "bachelor", "master", "doctor"], EducationName(e))
            == EducationIndex(e) as int
  {
    var order := ["primary", "middle", "high", "bachelor", "master", "doctor"];
    assert order[0] == "primary" && order[1] == "middle" && order[2] == "high";
    assert order[3] == "bachelor" && order[4] == "master" && order[5] == "doctor";
  }

  /** The two education gates of the code base agree. */
  lemma CanChangeCareerAgrees(player: Player, career: Career)
    ensures CanChangeCareer(player, career) == CareerService.MeetsEducationRequirement(player, career)
  {
  }

  /** calculateCareerExperience: years past 18, only with a career. */
  function CalculateCareerExperience(player: Player): (years: int)
    ensures years >= 0
    ensures player.career.None? ==> years == 0
    ensures player.career.Some? && player.age >= 18 ==> years == player.age - 18
    ensures player.career.Some? && player.age < 18 ==> years == 0
  {
    if player.career.None? then 0
    else
      var careerYears := if player.age - 18 >= 0 then player.age - 18 else 0;
      careerYears
  }

  /** canAdvanceCareer: false without a career, else the service's check. */
  function CanAdvanceCareer(player: Player): (ok: bool)
    ensures player.career.None? ==> !ok
    ensures player.career.Some? ==>
              (ok <==> LevelIndex(player.careerLevel) < player.career.value.maxLevel - 1)
  {
    if player.career.None? then false
    else
      var currentIndex := LevelIndex(player.careerLevel);
      var maxIndex := player.career.value.maxLevel - 1;
      currentIndex < maxIndex
  }

  lemma CanAdvanceCareerAgrees(player: Player)
    requires player.career.Some?
    ensures CanAdvanceCareer(player) == CareerService.CanAdvance(player, player.career.value, player.careerLevel)
  {
  }

  /** The multiplier table used for the income range. */
  function RangeMultiplier(level: CareerLevel): (m: real)
    ensures m >= 1.0
  {
    match level
    case Entry => 1.0
    case Junior => 1.5
    case Intermediate => 2.0
    case Senior => 3.0
    case Expert => 4.5
    case Master => 6.0
  }

  /** The table is strictly increasing along entry < ... < master. */
  lemma {:induction false} RangeMultiplierIncreasing(a: CareerLevel, b: CareerLevel)
    requires LevelIndex(a) < LevelIndex(b)
    ensures RangeMultiplier(a) < RangeMultiplier(b)
  {
    match a
    case Entry =>
    case Junior => assert b != Entry;
    case Intermediate => assert b in {Senior, Expert, Master};
    case Senior => assert b in {Expert, Master};
    case Expert => assert b == Master;
  }

  datatype IncomeRange = IncomeRange(min: real, max: real)

  /** getCareerIncomeRange: ±10% around base salary times the level multiplier. */
  function GetCareerIncomeRange(career: Career, level: CareerLevel): (r: IncomeRange)
    ensures r.min == 0.9 * (career.baseSalary * RangeMultiplier(level))
    ensures r.max == 1.1 * (career.baseSalary * RangeMultiplier(level))
    ensures career.baseSalary >= 0.0 ==> 0.0 <= r.min <= r.max
  {
    var multiplier := RangeMultiplier(level);
    var base := career.baseSalary * multiplier;
    assert career.baseSalary >= 0.0 ==> base >= 0.0;
    IncomeRange(base * 0.9, base * 1.1)
  }
}
