/** The career engine (src/services/careerService.ts): education-gated
    career lists, level advancement and income. */
module CareerService {
  import opened Types
  import opened Seqs
  import AttributeUtils

  /** meetsEducationRequirement: the player's education index is at least the
      career's required index. */
  predicate MeetsEducationRequirement(player: Player, career: Career) {
    EducationIndex(player.education) >= EducationIndex(career.educationRequired)
  }

  /** checkRequirements: a placeholder that accepts every requirement. */
  predicate CheckRequirements(player: Player, requirements: string) {
    true
  }

  predicate Eligible(player: Player, career: Career) {
    MeetsEducationRequirement(player, career)
    && (career.requirements.Some? ==> CheckRequirements(player, career.requirements.value))
  }

  /** getAvailableCareers over the CAREERS catalog (a parameter here). */
  function GetAvailableCareers(catalog: seq<Career>, player: Player): (r: seq<Career>)
  {
    Filter(catalog, (c: Career) => Eligible(player, c))
  }

  /** The available careers are exactly the catalog entries whose required
      education the player has reached, each as often as in the catalog, in
      catalog order. */
  lemma {:induction false} AvailableCareersExactly(catalog: seq<Career>, player: Player)
    ensures var r := GetAvailableCareers(catalog, player);
            (forall c :: c in r <==> c in catalog && EducationIndex(c.educationRequired) <= EducationIndex(player.education))
            && (forall c :: multiset(r)[c] ==
                  if EducationIndex(c.educationRequired) <= EducationIndex(player.education)
                  then multiset(catalog)[c] else 0)
            && IsSubsequence(r, catalog)
  {
    FilterIsSubsequence(catalog, (c: Career) => Eligible(player, c));
    FilterMultiplicity(catalog, (c: Career) => Eligible(player, c));
  }

  /** Raising the player's education never removes a career. */
  lemma {:induction false} MoreEducationMoreCareers(catalog: seq<Career>, player: Player, level: EducationLevel)
    requires EducationIndex(level) >= EducationIndex(player.education)
    ensures forall c :: c in GetAvailableCareers(catalog, player) ==>
                          c in GetAvailableCareers(catalog, player.(education := level))
  {
    AvailableCareersExactly(catalog, player);
    AvailableCareersExactly(catalog, player.(education := level));
  }

  /** canAdvance: the current level's index is below `maxLevel - 1`. */
  predicate CanAdvance(player: Player, career: Career, currentLevel: CareerLevel) {
    LevelIndex(currentLevel) < career.maxLevel - 1
  }

  /** getNextLevel: the successor level, none at master. */
  function GetNextLevel(currentLevel: CareerLevel): (r: Option<CareerLevel>)
    ensures r.None? <==> currentLevel == Master
    ensures r.Some? ==> LevelIndex(r.value) == LevelIndex(currentLevel) + 1
  {
    var currentIndex := LevelIndex(currentLevel);
    if currentIndex < |LevelOrder| - 1 then Some(LevelOrder[currentIndex + 1]) else None
  }

  /** advanceCareer: moves to the next level when allowed; otherwise a silent
      no-op.  Only careerLevel can change. */
  function AdvanceCareer(player: Player): (updated: Player)
    ensures player.career.None? ==> updated == player
    ensures updated == player.(careerLevel := updated.careerLevel)
    ensures updated.careerLevel != player.careerLevel <==>
              player.career.Some? && CanAdvance(player, player.career.value, player.careerLevel)
              && player.careerLevel != Master
    ensures updated.careerLevel != player.careerLevel ==>
              LevelIndex(updated.careerLevel) == LevelIndex(player.careerLevel) + 1
  {
    if player.career.None? then player
    else
      var career := player.career.value;
      var currentLevel := player.careerLevel;
      if CanAdvance(player, career, currentLevel) then
        match GetNextLevel(currentLevel)
        case Some(nextLevel) => player.(careerLevel := nextLevel)
        case None => player
      else player
  }

  /** At master nothing changes, however large maxLevel is. */
  lemma MasterIsFinal(player: Player)
    requires player.careerLevel == Master
    ensures AdvanceCareer(player) == player
  {
  }

  /** When canAdvance is false the player comes back identical. */
  lemma CannotAdvanceIsNoOp(player: Player)
    requires player.career.Some? && !CanAdvance(player, player.career.value, player.careerLevel)
    ensures AdvanceCareer(player) == player
  {
  }

  /** Advancing keeps the level index below maxLevel once it starts there. */
  lemma {:induction false} AdvanceStaysBelowMax(player: Player)
    requires player.career.Some? && LevelIndex(player.careerLevel) < player.career.value.maxLevel
    ensures LevelIndex(AdvanceCareer(player).careerLevel) < player.career.value.maxLevel
  {
  }

  /** getLevelMultiplier over CAREER_LEVEL_MULTIPLIERS (a parameter here). */
  function GetLevelMultiplier(table: map<CareerLevel, real>, level: CareerLevel): (m: real)
    ensures level in table && table[level] != 0.0 ==> m == table[level]
    ensures level !in table || table[level] == 0.0 ==> m == 1.0
  {
    AttributeUtils.TableMultiplier(table, level)
  }

  /** getExperienceBonus: 2% of the base salary per year past 18, up to 20 years. */
  function GetExperienceBonus(player: Player): (bonus: real)
    ensures player.age <= 18 || player.career.None? ==> bonus == 0.0
    ensures player.career.Some? && player.career.value.baseSalary >= 0.0 ==>
              0.0 <= bonus <= 0.4 * player.career.value.baseSalary
    ensures 18 < player.age && player.career.Some? ==>
              var years := if player.age - 18 <= 20 then player.age - 18 else 20;
              bonus == player.career.value.baseSalary * (0.02 * (years as real))
  {
    var careerYears := player.age - 18;
    if careerYears <= 0 || player.career.None? then 0.0
    else
      var years: int := if careerYears <= 20 then careerYears else 20;
      var rate := 0.02 * (years as real);
      var baseSalary := player.career.value.baseSalary;
      var bonus := baseSalary * rate;
      ScaleBound(baseSalary, rate);
      assert baseSalary >= 0.0 ==> 0.0 <= bonus <= 0.4 * baseSalary;
      bonus
  }

  lemma ScaleBound(base: real, rate: real)
    requires 0.0 <= rate <= 0.4
    ensures base >= 0.0 ==> 0.0 <= base * rate <= 0.4 * base
  {
    if base >= 0.0 {
      assert base * (0.4 - rate) >= 0.0;
    }
  }

  /** calculateIncome: 0 without a career, else base times multiplier plus the
      experience bonus. */
  function CalculateIncome(table: map<CareerLevel, real>, player: Player): (income: real)
    ensures player.career.None? ==> income == 0.0
    ensures player.career.Some? ==>
              income == player.career.value.baseSalary * GetLevelMultiplier(table, player.careerLevel)
                        + GetExperienceBonus(player)
  {
    match player.career
    case None => 0.0
    case Some(c) =>
      var levelMultiplier := GetLevelMultiplier(table, player.careerLevel);
      c.baseSalary * levelMultiplier + GetExperienceBonus(player)
  }

  /** With a non-negative salary, income is at least base times multiplier and
      at most 0.4 times the base above it. */
  lemma IncomeBounds(table: map<CareerLevel, real>, player: Player)
    requires player.career.Some? && player.career.value.baseSalary >= 0.0
    ensures var base := player.career.value.baseSalary * GetLevelMultiplier(table, player.careerLevel);
            base <= CalculateIncome(table, player) <= base + 0.4 * player.career.value.baseSalary
  {
  }

  /** Each year from 18 to 38 adds 2% of the base salary. */
  lemma {:induction false} ExperienceBonusStep(player: Player)
    requires player.career.Some? && 18 <= player.age < 38
    ensures GetExperienceBonus(player.(age := player.age + 1))
            == GetExperienceBonus(player) + 0.02 * player.career.value.baseSalary
  {
    var base := player.career.value.baseSalary;
    var years := player.age - 18;
    assert GetExperienceBonus(player) == base * (0.02 * (years as real));
    assert GetExperienceBonus(player.(age := player.age + 1)) == base * (0.02 * ((years + 1) as real));
  }

  /** Past 38 the experience bonus no longer grows. */
  lemma {:induction false} ExperienceCapsAtTwentyYears(player: Player)
    requires player.career.Some? && player.age >= 38
    ensures GetExperienceBonus(player) == player.career.value.baseSalary * 0.4
  {
    var c := player.career.value;
    assert GetExperienceBonus(player) == c.baseSalary * (0.02 * (20 as real));
  }
}
