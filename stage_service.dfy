/** Stage transitions with their events (src/services/stageService.ts). */
module StageService {
  import opened Types
  import opened StageUtils
  import AiService

  function StageTitle(stage: LifeStage): string {
    match stage
    case Childhood => "进入童年期"
    case Student => "进入学生期"
    case YoungAdult => "进入青年期"
    case Adult => "进入成年期"
    case MiddleAge => "进入中年期"
    case Elderly => "进入老年期"
  }

  function StageDescription(stage: LifeStage): string {
    match stage
    case Childhood => "你开始了人生的第一个阶段，童年时光总是充满好奇和探索。"
    case Student => "你开始上学了，学习将成为你生活的重要组成部分。"
    case YoungAdult => "你成年了，开始面临更多的人生选择，包括职业和感情。"
    case Adult => "你进入了人生的黄金时期，事业和家庭都需要你的关注。"
    case MiddleAge => "你进入了中年，经验和智慧都在增长，但也需要关注健康。"
    case Elderly => "你进入了老年，可以回顾一生，享受天伦之乐。"
  }

  function StageChoiceText(stage: LifeStage): string {
    match stage
    case Childhood => "享受童年"
    case Student => "努力学习"
    case YoungAdult => "规划未来"
    case Adult => "平衡生活"
    case MiddleAge => "关注健康"
    case Elderly => "享受晚年"
  }

  /** The single effect of each stage's default choice. */
  function StageEffect(stage: LifeStage): (e: Effect)
    ensures e.kind == AttributeEffect && e.attribute.Some? && e.value > 0.0
  {
    match stage
    case Childhood => Effect(AttributeEffect, Some(Happiness), 10.0)
    case Student => Effect(AttributeEffect, Some(Intelligence), 5.0)
    case YoungAdult => Effect(AttributeEffect, Some(Happiness), 5.0)
    case Adult => Effect(AttributeEffect, Some(Happiness), 5.0)
    case MiddleAge => Effect(AttributeEffect, Some(Health), 5.0)
    case Elderly => Effect(AttributeEffect, Some(Happiness), 10.0)
  }

  /** getDefaultStageEvent: the table is total over the six stages; `now`
      stands for Date.now(). */
  function GetDefaultStageEvent(stage: LifeStage, now: nat): (e: Event)
    ensures e.kind == Stage && !e.aiGenerated && e.conditions.None?
    ensures e.id == "stage-event-" + NatToString(now)
    ensures e.title == StageTitle(stage)
    ensures |e.choices| == 1 && e.choices[0].id == "choice-1"
    ensures e.choices[0].effects == [StageEffect(stage)]
  {
    Event("stage-event-" + NatToString(now), Stage, StageTitle(stage), StageDescription(stage),
          [Choice("choice-1", StageChoiceText(stage), [StageEffect(stage)], None)], None, false)
  }

  /** Distinct stages have distinct default events. */
  lemma DefaultStageEventsDistinct(a: LifeStage, b: LifeStage, now: nat)
    requires a != b
    ensures GetDefaultStageEvent(a, now) != GetDefaultStageEvent(b, now)
  {
    assert GetDefaultStageEvent(a, now).title != GetDefaultStageEvent(b, now).title;
  }

  /** generateStageEvent: the AI event of type STAGE, or the stage's default
      when the AI path fails. */
  function GenerateStageEvent(call: AiService.AiCall, stage: LifeStage, player: Player, now: nat): (e: Event)
    ensures AiService.GenerateEvent(call, player, Some(Stage)).Ok? ==>
              e == AiService.GenerateEvent(call, player, Some(Stage)).value
    ensures AiService.GenerateEvent(call, player, Some(Stage)).Err? ==> e == GetDefaultStageEvent(stage, now)
  {
    match AiService.GenerateEvent(call, player, Some(Stage))
    case Ok(event) => event
    case Err(_) => GetDefaultStageEvent(stage, now)
  }

  /** A stage event has type STAGE unless the AI reply could not be parsed, in
      which case the AI service substitutes its opportunity event. */
  lemma {:induction false} StageEventKind(call: AiService.AiCall, stage: LifeStage, player: Player, now: nat)
    ensures var e := GenerateStageEvent(call, stage, player, now);
            e.kind == Stage || e == AiService.AiFallbackEvent(Some(Stage), call.now)
  {
  }

  datatype StageOutcome = StageOutcome(newStage: Option<LifeStage>, stageEvent: Option<Event>)

  /** handleStageTransition: nothing when the stage does not change, else
      the new stage together with its event. */
  function HandleStageTransition(b: StageBounds, call: AiService.AiCall, player: Player,
                                 newAge: int, now: nat): (r: StageOutcome)
    ensures CheckStageTransition(b, player, newAge).None? ==> r == StageOutcome(None, None)
    ensures CheckStageTransition(b, player, newAge).Some? ==>
              r.newStage == Some(GetCurrentStage(b, newAge)) && r.stageEvent.Some?
    ensures r.newStage.Some? ==>
              r.stageEvent == Some(GenerateStageEvent(call, r.newStage.value, player, now))
  {
    match CheckStageTransition(b, player, newAge)
    case None => StageOutcome(None, None)
    case Some(newStage) => StageOutcome(Some(newStage), Some(GenerateStageEvent(call, newStage, player, now)))
  }

  /** On a birthday the outcome is non-empty exactly when the old age is the
      last age of a stage other than elderly. */
  lemma {:induction false} BirthdayOutcome(b: StageBounds, call: AiService.AiCall, player: Player, now: nat)
    requires Ascending(b)
    ensures var s := GetCurrentStage(b, player.age);
            HandleStageTransition(b, call, player, player.age + 1, now).newStage.Some?
            <==> s != Elderly && player.age == MaxAge(b, s)
  {
    BirthdayTransition(b, player);
  }
}
