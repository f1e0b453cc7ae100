/** The stage machine (src/utils/stageUtils.ts): age to life stage through a
    threshold cascade, and detection of a stage change. */
module StageUtils {
  import opened Types

  /** The inclusive upper age of the first five stages (STAGE_AGE_RANGES,
      which is not part of this model); elderly has no bound that matters. */
  datatype StageBounds = StageBounds(childhood: int, student: int, youngAdult: int,
                                     adult: int, middleAge: int)

  predicate Ascending(b: StageBounds) {
    b.childhood <= b.student <= b.youngAdult <= b.adult <= b.middleAge
  }

  /** The bounds the prompt text labels: 0-6, 7-18, 19-25, 26-40, 41-60, 61+. */
  const LabelledBounds := StageBounds(6, 18, 25, 40, 60)

  function StageIndex(s: LifeStage): nat {
    match s
    case Childhood => 0
    case Student => 1
    case YoungAdult => 2
    case Adult => 3
    case MiddleAge => 4
    case Elderly => 5
  }

  function MaxAge(b: StageBounds, s: LifeStage): int
    requires s != Elderly
  {
    match s
    case Childhood => b.childhood
    case Student => b.student
    case YoungAdult => b.youngAdult
    case Adult => b.adult
    case MiddleAge => b.middleAge
  }

  /** getCurrentStage: the first stage, in order, whose upper bound is at
      least `age`; elderly when there is none. */
  function GetCurrentStage(b: StageBounds, age: int): (stage: LifeStage)
    ensures stage != Elderly ==> age <= MaxAge(b, stage)
    ensures forall s :: StageIndex(s) < StageIndex(stage) ==> s != Elderly && MaxAge(b, s) < age
  {
    if age <= b.childhood then Childhood
    else if age <= b.student then Student
    else if age <= b.youngAdult then YoungAdult
    else if age <= b.adult then Adult
    else if age <= b.middleAge then MiddleAge
    else Elderly
  }

  /** With ascending bounds, a later age never maps to an earlier stage. */
  lemma StageMonotone(b: StageBounds, a1: int, a2: int)
    requires Ascending(b)
    requires a1 <= a2
    ensures StageIndex(GetCurrentStage(b, a1)) <= StageIndex(GetCurrentStage(b, a2))
  {
  }

  lemma StageAtZero(b: StageBounds)
    requires b.childhood >= 0
    ensures GetCurrentStage(b, 0) == Childhood
  {
  }

  /** Every age past the middle-age bound is elderly. */
  lemma ElderlyIsTerminal(b: StageBounds, age: int)
    requires Ascending(b) && age > b.middleAge
    ensures GetCurrentStage(b, age) == Elderly
  {
  }

  /** checkStageTransition: the stage of `newAge` when it differs from the
      stage of the player's age; depends on nothing but the two ages. */
  function CheckStageTransition(b: StageBounds, player: Player, newAge: int): (r: Option<LifeStage>)
    ensures r.None? <==> GetCurrentStage(b, player.age) == GetCurrentStage(b, newAge)
    ensures r.Some? ==> r.value == GetCurrentStage(b, newAge)
  {
    var currentStage := GetCurrentStage(b, player.age);
    var newStage := GetCurrentStage(b, newAge);
    if currentStage != newStage then Some(newStage) else None
  }

  /** Two players of the same age see the same transition. */
  lemma TransitionDependsOnlyOnAges(b: StageBounds, p: Player, q: Player, newAge: int)
    requires p.age == q.age
    ensures CheckStageTransition(b, p, newAge) == CheckStageTransition(b, q, newAge)
  {
  }

  /** No transition is reported between two ages past the middle-age bound. */
  lemma {:induction false} NoTransitionWhenElderly(b: StageBounds, p: Player, newAge: int)
    requires Ascending(b) && p.age > b.middleAge && newAge > b.middleAge
    ensures CheckStageTransition(b, p, newAge) == None
  {
    ElderlyIsTerminal(b, p.age);
    ElderlyIsTerminal(b, newAge);
  }

  /** Ageing by one year reports a transition exactly when the player is at
      the upper bound of the current stage. */
  lemma {:induction false} BirthdayTransition(b: StageBounds, p: Player)
    requires Ascending(b)
    ensures var s := GetCurrentStage(b, p.age);
            CheckStageTransition(b, p, p.age + 1).Some? <==> (s != Elderly && p.age == MaxAge(b, s))
  {
    var s := GetCurrentStage(b, p.age);
    var t := GetCurrentStage(b, p.age + 1);
    StageMonotone(b, p.age, p.age + 1);
    if s != Elderly && p.age == MaxAge(b, s) {
      assert t != s;
    } else if s != Elderly {
      assert p.age + 1 <= MaxAge(b, s);
    }
  }

  /** The labelled bounds: 18 is student, 19 young adult. */
  lemma LabelledScenario(p: Player)
    requires p.age == 18
    ensures CheckStageTransition(LabelledBounds, p, 19) == Some(YoungAdult)
  {
  }
}
