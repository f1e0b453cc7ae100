# Life simulator rule engine, modelled in Dafny

This project models the rule engine of a browser life-simulation game, a
TypeScript/React application. A player lives from age 0 through six life
stages: childhood, student, young adult, adult, middle age and elderly.

Along the way the game does these things:
- It applies event choices to six attributes. Five of these are kept within [0, 100]; wealth is unbounded.
- It gates careers and career levels by education.
- It keeps friends, a partner and children.
- It asks an external language model for events. When that fails it falls back to fixed events.

The model covers these parts of the game:
- The pure services and utilities: attribute arithmetic, the stage cascade, the career engine, the event validator, the relationship reducer, the event and stage orchestration, and the AI configuration chain. These become datatypes, functions and lemmas.
- The React game-state hook. This becomes the class `GameStateHook.GameState`, with `player`, `gameStarted` and `logs` fields.
- The view handlers. These become methods that update that object in place.
- The two places where the source works step by step:
  - effect accumulation (`AttributeUtils.ApplyEventEffects`, a loop with invariants);
  - fence stripping of the AI reply (`AiService.ExtractJson`).
  These are methods proved against specification functions.

Some values come from modules that are not part of this model. They are parameters here:
- The stage age bounds (`StageBounds`).
- The career catalog (`seq<Career>`).
- The career-level multiplier and name tables (`map`s).
- The configuration-file loader (`AiConfig.Loader`).
- The environment variables (`AiConfig.Env`).
- The clock, generated ids and random draws.

Attribute values are exact `real`s, so 0.5, 0.02, 0.1, 0.9 and 1.1 have no rounding.

Where the code and the design description differ, the model follows the code:
- The AI service's own fallback is always the opportunity event, whatever type was requested.
- A requested daily fallback has one choice and so fails the event validator.
- Events coming out of the event service never carry conditions. So the event view's "conditions not met" branch is never taken (`EventService.GeneratedEventAlwaysEligible`).

## Model

| member | source | states |
|---|---|---|
| AttributeUtils.EducationBonus | src/utils/attributeUtils.ts:8-19 | the intelligence bonus of an education level lies in [0, 40] |
| AttributeUtils.EducationBonusMonotone | src/utils/attributeUtils.ts:9-16 | a higher education level never gives a smaller bonus (0/5/10/20/30/40) |
| AttributeUtils.TableMultiplier | src/utils/attributeUtils.ts:29-30 | `table[level] \|\| 1`: the table's non-zero entry, and 1 for a missing or zero entry; never 0 |
| AttributeUtils.CareerBonus | src/utils/attributeUtils.ts:24-36 | the happiness bonus exists iff there is a career, is at most 10, and is non-negative for a non-negative salary and positive multiplier |
| AttributeUtils.Clamp | src/utils/attributeUtils.ts:83-87 | the result lies in [0, 100], is the identity inside, 0 below and 100 above |
| AttributeUtils.StepAdds | src/utils/attributeUtils.ts:73-80 | one effect adds its value to exactly the attribute it targets, and a wealth effect adds to wealth |
| AttributeUtils.AccumulateIsSum | src/utils/attributeUtils.ts:73-80 | accumulating a batch adds, per attribute, the sum of the values targeting it |
| AttributeUtils.DeltaAppend | src/utils/attributeUtils.ts:73-80 | the per-attribute sum over two batches is the sum of the two sums |
| AttributeUtils.ApplyEventEffects | src/utils/attributeUtils.ts:66-91 | the five bounded attributes end in [0, 100], each equal to the clamp of initial plus its total delta; wealth equals initial plus every wealth-targeting value, unclamped; all non-attribute fields are unchanged |
| AttributeUtils.EffectOrderIrrelevant | src/utils/attributeUtils.ts:73-80 | before clamping, the order of the effects does not matter |
| AttributeUtils.ClampOnceExample | src/utils/attributeUtils.ts:73-87 | health 50 with +90 then -90 ends at 50: clamping happens once, after the batch |
| AttributeUtils.ApplyAgeEffects | src/utils/attributeUtils.ts:96-113 | health unchanged to 40, minus 0.5 past 40, minus 1.5 in total past 60, never below 0; stress +0.5 capped at 100 exactly when 18 < age < 60; other attributes unchanged |
| AttributeUtils.CapThenAdd | src/utils/attributeUtils.ts:50-58 | capping at 100 before adding a non-negative bonus and capping again equals capping once |
| AttributeUtils.CalculateAttributes | src/utils/attributeUtils.ts:41-61 | intelligence = min(100, base + education bonus); happiness = min(100, base + career bonus + 5 with a partner + 3 per child); both at most 100; health, charm, wealth and stress copied |
| StageUtils.GetCurrentStage | src/utils/stageUtils.ts:7-24 | the result is the first stage whose upper bound is at least the age: every earlier stage's bound is below the age, and a non-elderly result bounds it |
| StageUtils.StageMonotone | src/utils/stageUtils.ts:7-24 | with ascending bounds, an older age never maps to an earlier stage |
| StageUtils.StageAtZero | src/utils/stageUtils.ts:8-10 | age 0 is childhood whenever the childhood bound is non-negative |
| StageUtils.ElderlyIsTerminal | src/utils/stageUtils.ts:20-23 | every age past the middle-age bound is elderly |
| StageUtils.CheckStageTransition | src/utils/stageUtils.ts:29-40 | none iff the old and new ages map to the same stage; otherwise the new age's stage |
| StageUtils.TransitionDependsOnlyOnAges | src/utils/stageUtils.ts:33-34 | two players of the same age get the same transition |
| StageUtils.NoTransitionWhenElderly | src/utils/stageUtils.ts:20-23 | no transition between two ages past the middle-age bound |
| StageUtils.BirthdayTransition | src/utils/stageUtils.ts:29-40 | ageing by one reports a transition iff the age is the upper bound of a non-elderly stage |
| StageUtils.LabelledScenario | src/services/aiService.ts:52-59 | with the bounds the prompt labels (6/18/25/40/60), 18 to 19 enters young adulthood |
| CareerService.AvailableCareersExactly | src/services/careerService.ts:8-22 | the available careers are exactly the catalog entries whose required education index is at most the player's, each as many times as in the catalog, as an order-preserving subsequence |
| CareerService.GetAvailableCareers | src/services/careerService.ts:8-22 | `CAREERS.filter` by eligibility; its contract is AvailableCareersExactly |
| CareerService.MeetsEducationRequirement | src/services/careerService.ts:27-44 | the player's position in the education order is at least the required one |
| CareerService.CheckRequirements | src/services/careerService.ts:49-55 | the placeholder check accepts every requirement |
| CareerService.Eligible | src/services/careerService.ts:9-21 | the filter predicate: the education gate, then the requirements check when requirements are present |
| CareerService.CanAdvance | src/services/careerService.ts:81-99 | the level's position in the level order is below maxLevel - 1 |
| CareerService.MoreEducationMoreCareers | src/services/careerService.ts:27-44 | raising education never removes an available career |
| CareerService.GetNextLevel | src/services/careerService.ts:104-120 | none exactly at master; otherwise the level with the next index |
| CareerService.AdvanceCareer | src/services/careerService.ts:60-76 | no career: unchanged; the level changes iff canAdvance holds and the level is not master, and then by one index; no field other than careerLevel changes |
| CareerService.MasterIsFinal | src/services/careerService.ts:104-120 | at master advancing is a no-op whatever maxLevel is |
| CareerService.CannotAdvanceIsNoOp | src/services/careerService.ts:81-99 | when canAdvance fails the player comes back identical |
| CareerService.AdvanceStaysBelowMax | src/services/careerService.ts:60-99 | a level index below maxLevel stays below it after advancing |
| CareerService.GetLevelMultiplier | src/services/careerService.ts:151-153 | the table's non-zero entry, otherwise 1.0 |
| CareerService.GetExperienceBonus | src/services/careerService.ts:139-146 | 0 at age 18 or below or without a career; otherwise base salary times 0.02 times min(age - 18, 20); between 0 and 0.4 times a non-negative salary |
| CareerService.ExperienceBonusStep | src/services/careerService.ts:144-145 | from age 18 to 38 each year adds 2% of the base salary |
| CareerService.CalculateIncome | src/services/careerService.ts:125-134 | 0 without a career, else salary times multiplier plus the experience bonus |
| CareerService.IncomeBounds | src/services/careerService.ts:125-146 | with a non-negative salary, income lies between salary times multiplier and that plus 0.4 times the salary |
| CareerService.ExperienceCapsAtTwentyYears | src/services/careerService.ts:145 | from age 38 the bonus is fixed at 0.4 times the salary |
| CareerUtils.GetCareerLevelName | src/utils/careerUtils.ts:7-9 | the table's non-empty name for the level, else the level's own value; never empty |
| CareerUtils.CanChangeCareer | src/utils/careerUtils.ts:14-29 | true iff the player's education index is at least the required one |
| CareerUtils.IndexOf | src/utils/careerUtils.ts:25-26 | `indexOf`: the first position holding the value, or -1 when it is absent |
| CareerUtils.NameIndex | src/utils/careerUtils.ts:15-26 | `indexOf` over the string order finds every level at its enum position |
| CareerUtils.CanChangeCareerAgrees | src/utils/careerUtils.ts:14-29 | the string-based gate agrees with the career service's gate |
| CareerUtils.CalculateCareerExperience | src/utils/careerUtils.ts:34-40 | 0 without a career, else max(0, age - 18); never negative |
| CareerUtils.CanAdvanceCareer | src/utils/careerUtils.ts:45-61 | false without a career, else index(level) < maxLevel - 1 |
| CareerUtils.CanAdvanceCareerAgrees | src/utils/careerUtils.ts:45-61 | agrees with the career service's canAdvance |
| CareerUtils.RangeMultiplier | src/utils/careerUtils.ts:70-77 | every multiplier is at least 1 |
| CareerUtils.RangeMultiplierIncreasing | src/utils/careerUtils.ts:70-77 | the multipliers strictly increase from entry to master |
| CareerUtils.GetCareerIncomeRange | src/utils/careerUtils.ts:66-86 | min = 0.9 and max = 1.1 times salary times multiplier, so 0 <= min <= max for a non-negative salary |
| EventUtils.EveryCondition | src/utils/eventUtils.ts:15-49 | true iff every listed condition holds |
| EventUtils.ConditionHolds | src/utils/eventUtils.ts:15-49 | one condition: age within its optional inclusive bounds, stage among the listed ones, attribute within its optional inclusive bounds |
| EventUtils.CheckEventConditions | src/utils/eventUtils.ts:7-50 | absent conditions pass; otherwise true iff every condition passes (inclusive optional age bounds, stage in the list, inclusive optional attribute bounds) |
| EventUtils.NoConditionsAlwaysEligible | src/utils/eventUtils.ts:11-13 | absent or empty conditions always pass |
| EventUtils.EveryRequirement | src/utils/eventUtils.ts:63-75 | true iff every requirement holds |
| EventUtils.RequirementHolds | src/utils/eventUtils.ts:63-75 | one requirement: without an attribute it passes, otherwise the attribute lies within the optional inclusive bounds |
| EventUtils.CheckChoiceRequirements | src/utils/eventUtils.ts:55-76 | absent requirements pass; otherwise true iff each requirement's attribute lies within its inclusive bounds, one without an attribute passing |
| EventUtils.AvailableChoicesExactly | src/utils/eventUtils.ts:81-88 | the available choices are exactly those meeting their requirements, each as many times as in the event, as an order-preserving subsequence |
| EventUtils.GetAvailableChoices | src/utils/eventUtils.ts:81-88 | `choices.filter(checkChoiceRequirements)`; its contract is AvailableChoicesExactly |
| EventUtils.UnrestrictedChoicesAllAvailable | src/utils/eventUtils.ts:81-88 | choices without requirements are all available, in order |
| EventUtils.MapWithIds | src/utils/eventUtils.ts:104-107 | one choice per draft, in order, each with its id |
| EventUtils.CreateEvent | src/utils/eventUtils.ts:93-110 | one choice per input choice, in order, with the given ids, texts and effects; not AI-generated; no conditions |
| EventUtils.CreateChoice | src/utils/eventUtils.ts:115-124 | a choice with the given text, effects and id, without requirements |
| EventUtils.ValidateEvent | src/utils/eventUtils.ts:129-139 | true iff title and description are non-empty and there are at least two choices |
| RelationshipService.NewPerson | src/services/relationshipService.ts:12-15 | the draft's fields plus the fresh id and the forced type |
| RelationshipService.AddFriend | src/services/relationshipService.ts:8-19 | exactly one FRIEND appended at the end of friends; nothing else changes |
| RelationshipService.RemoveFriend | src/services/relationshipService.ts:24-29 | friends keep exactly the entries with another id, each as many times as before, in order; nothing else changes |
| RelationshipService.RemoveAbsentFriendIsNoOp | src/services/relationshipService.ts:24-29 | removing an absent id returns the player unchanged |
| RelationshipService.AddThenRemoveFriend | src/services/relationshipService.ts:8-29 | removing a friend just added under a fresh id restores the player |
| RelationshipService.AddPartner | src/services/relationshipService.ts:34-46 | partner set as a PARTNER and DATING, replacing any previous partner; nothing else changes |
| RelationshipService.Marry | src/services/relationshipService.ts:51-58 | identity without a partner, else MARRIED with the partner kept |
| RelationshipService.Divorce | src/services/relationshipService.ts:63-69 | unconditionally no partner and DIVORCED |
| RelationshipService.AddChild | src/services/relationshipService.ts:74-85 | one CHILD appended to children; nothing else changes |
| RelationshipService.AddParent | src/services/relationshipService.ts:90-101 | one PARENT appended to parents; nothing else changes |
| RelationshipService.GetDefaultRelationship | src/services/relationshipService.ts:145-155 | every person type has a non-empty label other than the unknown one |
| RelationshipService.DefaultRelationshipsDistinct | src/services/relationshipService.ts:146-153 | distinct person types get distinct labels |
| EventService.CheckPresetEvents | src/services/eventService.ts:37-44 | never returns a preset event |
| EventService.GetFallbackEvent | src/services/eventService.ts:49-124 | the opportunity and challenge entries for those types, the daily entry for any other type or none; never AI-generated; no conditions |
| EventService.OpportunityFallback | src/services/eventService.ts:54-77 | the opportunity entry: 意外的机会, two choices |
| EventService.ChallengeFallback | src/services/eventService.ts:78-101 | the challenge entry: 面临的挑战, two choices |
| EventService.DailyFallback | src/services/eventService.ts:102-117 | the daily entry: 日常生活, one choice |
| EventService.FallbackTableContents | src/services/eventService.ts:54-117 | each entry's type is its key, with effects {happiness+5, stress+3}/{stress-2}, {happiness+3, stress+5}/{stress-3} and {happiness+2} |
| EventService.FallbackValidity | src/services/eventService.ts:102-117 | the one-choice daily fallback fails validateEvent; the other two pass |
| EventService.FallbackKindFollowsRequest | src/services/eventService.ts:120-123 | the fallback has the requested type iff that type is opportunity, challenge or daily |
| EventService.GenerateEvent | src/services/eventService.ts:14-32 | the AI event when the AI path succeeds, the fallback for the type when it fails; no error escapes |
| EventService.InvalidConfigGivesFallback | src/services/eventService.ts:25-31 | an invalid AI configuration yields the deterministic fallback |
| EventService.GeneratedEventProvenance | src/services/eventService.ts:14-32 | a generated event is AI-generated or one of the two fallbacks, and never has conditions |
| EventService.GeneratedEventAlwaysEligible | src/views/event/useEventHandlers.ts:26-29 | generated events always pass checkEventConditions |
| StageService.StageEffect | src/services/stageService.ts:57-129 | each stage's default effect is a positive attribute effect |
| StageService.StageTitle | src/services/stageService.ts:53-123 | the title of each stage's default event |
| StageService.StageDescription | src/services/stageService.ts:54-124 | the description of each stage's default event |
| StageService.StageChoiceText | src/services/stageService.ts:58-128 | the text of each stage's single default choice |
| StageService.GetDefaultStageEvent | src/services/stageService.ts:48-137 | type STAGE, not AI-generated, one choice `choice-1` with the stage's fixed effect (happiness+10, intelligence+5, happiness+5, happiness+5, health+5, happiness+10) |
| StageService.DefaultStageEventsDistinct | src/services/stageService.ts:49-134 | different stages have different default events |
| StageService.GenerateStageEvent | src/services/stageService.ts:31-43 | the AI event of type STAGE, or the stage's default when the AI path fails |
| StageService.StageEventKind | src/services/stageService.ts:31-43 | a stage event has type STAGE unless the AI reply was unparsable, in which case it is the AI service's opportunity fallback |
| StageService.HandleStageTransition | src/services/stageService.ts:12-26 | no change gives {null, null}; a change gives the new stage with its stage event |
| StageService.BirthdayOutcome | src/services/stageService.ts:16-25 | ageing by one yields a new stage iff the old age ends a non-elderly stage |
| AiService.TrimStart | src/services/aiService.ts:167 | a suffix of the input; everything removed is JavaScript whitespace, and the result does not start with it |
| AiService.TrimEnd | src/services/aiService.ts:167 | a prefix of the input; everything removed is JavaScript whitespace, and the result does not end with it |
| AiService.Trim | src/services/aiService.ts:167 | a slice of the input with only JavaScript whitespace on either side, neither starting nor ending with whitespace |
| AiService.TrimIdempotent | src/services/aiService.ts:167 | trimming twice equals trimming once |
| AiService.StripAll | src/services/aiService.ts:169-171 | global removal of a literal plus an optional newline never lengthens the text |
| AiService.StripKeepsNonBacktickHead | src/services/aiService.ts:171 | a text not starting with a backtick keeps its first character |
| AiService.StripNoDoubleHead | src/services/aiService.ts:171 | removing fences never creates a leading double backtick |
| AiService.StripAllFenceFree | src/services/aiService.ts:171 | after removing every fence no three consecutive backticks remain |
| AiService.StripSkipsBacktickFree | src/services/aiService.ts:169-171 | a backtick-free prefix passes the global replace unchanged |
| AiService.StripKeepsBacktickFree | src/services/aiService.ts:169-171 | text without backticks is left as it is |
| AiService.JsonTextFenceFree | src/services/aiService.ts:167-172 | a reply starting with a fence after trimming reaches the parser fence-free; any other reply is only trimmed |
| AiService.JsonText | src/services/aiService.ts:167-172 | the text handed to JSON.parse; its contracts are JsonTextFenceFree and FencedJsonReply |
| AiService.FencedJsonReply | src/services/aiService.ts:167-172 | a ```json block around a backtick-free body reaches the parser as the body and its closing newline |
| AiService.ExtractJson | src/services/aiService.ts:167-172 | the step-by-step extraction yields the fence-free text for fenced replies and the trimmed reply otherwise |
| AiService.TagToType | src/services/aiService.ts:179 | a tag outside the five event types becomes an unlisted type |
| AiService.AttrKeyOf | src/services/aiService.ts:187 | a key names an attribute iff it is one of the six attribute names |
| AiService.MapEffects | src/services/aiService.ts:185-189 | one attribute effect per entry, in order, with the numeric value or 0 |
| AiService.MapChoice | src/services/aiService.ts:182-190 | one parsed choice at an index: id choice-index, text or 选择 index+1, mapped effects, no requirements |
| AiService.MapChoices | src/services/aiService.ts:182-190 | one choice per parsed choice, in order, each built from its own index |
| AiService.MapParsedEvent | src/services/aiService.ts:177-192 | type = requested ?? truthy parsed type ?? daily; title defaults to 未知事件, description to ''; as many choices as parsed, or none; AI-generated; no conditions |
| AiService.ParsedChoicesExactly | src/services/aiService.ts:182-190 | choice i has id choice-i, the parsed text or 选择 i+1, one effect per parsed entry, no requirements |
| AiService.ParsedEffectsExactly | src/services/aiService.ts:185-189 | each parsed effect is an attribute effect on the named key with its number, or 0 for a non-number |
| AiService.AiFallbackEvent | src/services/aiService.ts:206-238 | always the opportunity event with two choices, not AI-generated |
| AiService.AiFallbackIgnoresType | src/services/aiService.ts:234-237 | the fallback is the same whatever type was requested, and it passes validateEvent |
| AiService.ParseAIResponse | src/services/aiService.ts:160-201 | a successful parse gives the mapped, AI-generated event; a failed parse gives the opportunity fallback |
| AiService.GenerateEvent | src/services/aiService.ts:21-32 | an invalid configuration fails with the configuration message; a failed request passes its error on; a reply is parsed |
| AiService.InvalidConfigMakesNoRequest | src/services/aiService.ts:25-27 | with an invalid configuration the outcome is an error independent of the reply, the parser and the clock |
| AiService.SuccessfulRequestYieldsEvent | src/services/aiService.ts:29-31 | a successful request always yields an event, AI-generated or the opportunity fallback |
| AiConfig.OrElse | src/config/aiConfig.ts:38 | `x \|\| fallback` on an optional string |
| AiConfig.OrOption | src/config/aiConfig.ts:90-91 | `x ?? y` |
| AiConfig.GetProviderUrl | src/config/aiConfig.ts:99-110 | openai gets its fixed URL, custom gets VITE_AI_URL or '', everything else the SiliconFlow URL |
| AiConfig.ChosenModel | src/config/aiConfig.ts:44-57 | the truthy env model id's entry if the loader has it, else the loader's default |
| AiConfig.GetAIConfig | src/config/aiConfig.ts:36-94 | the key is VITE_AI_KEY or '' on every path; without a file model the config comes from env strings (siliconflow, Qwen2.5-72B, 0.8, 2000, provider URL, no model id); otherwise from the model, with temperature and maxTokens falling back to the prompt config and modelId set |
| AiConfig.ValidateAIConfig | src/config/aiConfig.ts:115-118 | true iff key and URL are both non-empty |
| AiConfig.NoKeyNeverValid | src/config/aiConfig.ts:36-118 | without a truthy key the configuration is never valid |
| AiConfig.EnvFallbackValidUnlessCustom | src/config/aiConfig.ts:60-110 | with a key and no file model the configuration is valid unless the provider is custom without a URL |
| AiConfig.UnknownModelIdFallsBack | src/config/aiConfig.ts:46-57 | an env model id the loader does not know behaves as no id |
| AiModels.ProviderOf | src/config/aiModels.ts:9 | the provider cast from a string renders back as that string |
| AiModels.FindIndex | src/config/aiModels.ts:129 | `findIndex` by id: the first matching position, or -1 when none matches |
| AiModels.GetModelById | src/config/aiModels.ts:128-130 | none iff no entry has the id; otherwise a catalog entry with that id |
| AiModels.LookupFindsEveryEntry | src/config/aiModels.ts:128-130 | every catalog entry is found by its own id |
| AiModels.CatalogIdsDistinct | src/config/aiModels.ts:20-123 | the ten ids are pairwise distinct |
| AiModels.GetModelsByProvider | src/config/aiModels.ts:135-137 | exactly the provider's entries, as an order-preserving subsequence |
| AiModels.GetDefaultModel | src/config/aiModels.ts:142-144 | the first entry, qwen-72b |
| AiModels.GetModelDisplayName | src/config/aiModels.ts:149-151 | the display name starts with the model's name and ends with " (provider)", with no other characters |
| AiModels.CatalogUrlsMatchProvider | src/config/aiModels.ts:20-123 | every entry is siliconflow or openai and carries that provider's URL |
| GameStateHook.ApplyPatch | src/hooks/useGameState.ts:93-98 | patched fields override, the save date is refreshed, and an age/stage patch changes nothing else |
| GameStateHook.EmptyPatchRefreshesOnly | src/hooks/useGameState.ts:95-96 | an empty patch only refreshes the save date |
| GameStateHook.PatchIdempotent | src/hooks/useGameState.ts:95-96 | applying a patch twice at the same time equals applying it once |
| GameStateHook.NewPlayer | src/hooks/useGameState.ts:40-62 | age 0, childhood, primary, entry, single; no career, partner or current event; every collection empty; both dates now |
| GameStateHook.NewPlayerStageConsistent | src/hooks/useGameState.ts:42-43 | the new player's stage is its age's stage when childhood covers age 0 |
| GameStateHook.WelcomeMessage | src/hooks/useGameState.ts:67 | the welcome line with the player's name |
| GameStateHook.BirthdayMessage | src/hooks/useGameState.ts:115 | the birthday line with the new age |
| GameStateHook.GameState.constructor | src/hooks/useGameState.ts:13-15 | no player, not started, no logs |
| GameStateHook.GameState.AddLog | src/hooks/useGameState.ts:75-87 | exactly one entry appended; earlier entries and the player unchanged |
| GameStateHook.GameState.SetPlayer | src/hooks/useGameState.ts:13 | the player cell replaced; logs unchanged |
| GameStateHook.GameState.CreateNewGame | src/hooks/useGameState.ts:38-70 | the new player with the given or drawn attributes, started, and a single welcome log; stage consistent with age |
| GameStateHook.GameState.UpdatePlayer | src/hooks/useGameState.ts:92-99 | no-op without a player, else the patched player |
| GameStateHook.GameState.AgeUp | src/hooks/useGameState.ts:104-116 | no-op without a player; else one year older with the recomputed stage and one birthday log; keeps and establishes stage consistency |
| GameStateHook.GameState.ResetGame | src/hooks/useGameState.ts:121-125 | no player, not started, no logs |
| EventHandlers.HandleTriggerEvent | src/views/event/useEventHandlers.ts:21-38 | the generated event is returned with an event log when its conditions hold; otherwise none with a system log; the player is untouched |
| EventHandlers.HandleChoice | src/views/event/useEventHandlers.ts:43-60 | attributes as applyEventEffects computes them, event and choice appended to the history, no current event, one choice log; requirements not consulted |
| EventHandlers.GetAvailableChoicesForEvent | src/views/event/useEventHandlers.ts:65-70 | exactly getAvailableChoices for the current player |
| EventHandlers.EventMessage | src/views/event/useEventHandlers.ts:31 | the event log line with the event's title |
| EventHandlers.ChoiceMessage | src/views/event/useEventHandlers.ts:57 | the choice log line with the choice's text |
| CareerHandlers.GetAvailableCareers | src/views/career/useCareerHandlers.ts:20-22 | the career service's list for the current player: exactly the admitted catalog careers, in catalog order |
| CareerHandlers.HandleSelectCareer | src/views/career/useCareerHandlers.ts:27-43 | refused with one log below the required education; else the career at entry level, even when re-selected, with one log |
| CareerHandlers.HandleAdvanceCareer | src/views/career/useCareerHandlers.ts:48-57 | commits advanceCareer only when the level changed, with one log either way; only careerLevel can change |
| CareerHandlers.CalculateIncome | src/views/career/useCareerHandlers.ts:62-64 | the service's income for the current player |
| CareerHandlers.SelectedMessage | src/views/career/useCareerHandlers.ts:40 | the log line naming the selected career |
| CareerHandlers.AdvancedMessage | src/views/career/useCareerHandlers.ts:53 | the log line with the new level's enum value |
| EducationHandlers.GetAvailableEducationLevels | src/views/education/useEducationHandlers.ts:18-32 | 5 - index levels, none at doctor |
| EducationHandlers.AvailableEducationLevelsExactly | src/views/education/useEducationHandlers.ts:28-31 | exactly the levels strictly above the current one, in increasing order |
| EducationHandlers.HandleSelectEducation | src/views/education/useEducationHandlers.ts:37-64 | a level not above the current one is refused with one log; a higher one, skipping allowed, replaces only education with one log; the education index never decreases |
| EducationHandlers.RaisedMessage | src/views/education/useEducationHandlers.ts:61 | the log line with the new level's enum value |
| RelationshipHandlers.FindFriend | src/views/relationship/useRelationshipHandlers.ts:33 | none iff no friend has the id; otherwise the first friend in the list with that id, as `find` returns it |
| RelationshipHandlers.HandleAddFriend | src/views/relationship/useRelationshipHandlers.ts:19-26 | addFriend applied, one log |
| RelationshipHandlers.HandleRemoveFriend | src/views/relationship/useRelationshipHandlers.ts:31-41 | removeFriend always applied; a log only when the friend existed, and otherwise nothing changes |
| RelationshipHandlers.HandleAddPartner | src/views/relationship/useRelationshipHandlers.ts:46-53 | addPartner applied, one log |
| RelationshipHandlers.HandleMarry | src/views/relationship/useRelationshipHandlers.ts:58-67 | without a partner only a log; else MARRIED and a log naming the partner |
| RelationshipHandlers.HandleDivorce | src/views/relationship/useRelationshipHandlers.ts:72-82 | without a partner only a log, stricter than the service; else no partner, DIVORCED and a log naming the former partner |
| RelationshipHandlers.HandleAddChild | src/views/relationship/useRelationshipHandlers.ts:87-94 | addChild applied, one log |
| Seqs.Filter | src/services/careerService.ts:9 | `Array.prototype.filter`: the kept elements are exactly those satisfying the predicate, no more than the input, and everything when all pass |
| Seqs.FilterMultiplicity | src/services/careerService.ts:9 | a kept element occurs in the result exactly as often as in the input, a rejected one not at all |
| Seqs.FilterIsSubsequence | src/utils/eventUtils.ts:85-87 | a filter result is an order-preserving subsequence of its input |
| Seqs.FilterAppend | src/services/relationshipService.ts:27 | filtering a concatenation is concatenating the filtered parts |
| Types.NatToString | src/hooks/useGameState.ts:115 | template-literal rendering of a natural number: decimal digits that denote it, with no leading zero |

## Left out

- Randomness is not modelled: `generateRandomAttributes` (src/utils/attributeUtils.ts:120-151), `generateRandomPerson` and `getRandomNames` (src/services/relationshipService.ts:106-139), and `Math.random` in event ids. Where the game uses a random or generated value (attributes at game start, person, log, event and choice ids, the random id suffix), the model takes that value as a parameter.
- The clock: each `Date.now()` is a parameter `now`.
- The network and the AI endpoint. `callAI` (fetch, response status, `data.choices[0].message.content`) is replaced by an input `Result<string, string>`. The prose prompt of `buildEventPrompt` and `getCurrentModelInfo` are not modelled.
- JSON.parse is replaced by a parser parameter that returns an abstract record of optional fields. A parse that throws, a `null` result and a malformed `choices` value are all one `None`. Non-string titles and non-array choices are not modelled separately.
- Effect keys that are not attribute names: the source writes a junk `NaN`-valued field under such a key. The model maps the key to no attribute, which leaves the six attributes as the source leaves them.
- `console.warn`/`console.error` output.
- The load and autosave effects of useGameState (localStorage), the `settings` cell, and `useGameEffects` are not modelled. These are React scheduling and I/O.
- The async/await interleaving of React state updates is sequentialised. The handlers read the current player from the game state. The view that wires the hooks together is not part of this model. So `setPlayer` is a plain replacement of the player cell (`GameStateHook.GameState.SetPlayer`), and a functional updater is applied to the current player. The hook exports `setPlayer: updatePlayer` (src/hooks/useGameState.ts:129), which merges, refreshes lastSaveDate and ignores a missing player; the model instead takes the `useState` setter (src/hooks/useGameState.ts:13), because the handlers pass a functional updater, which only that setter accepts.
- EventHandlers.HandleTriggerEvent does not model the `catch` branch (log "生成事件失败，请重试"): the event service never fails, so that branch cannot run.
- `switchAIModel`, `resetAIConfig`, and the configuration-file loader (only its three entry points are modelled, as `AiConfig.Loader`).
- The constants module (stage bounds, career catalog, multiplier and level-name tables, attribute ranges) is not part of this model. Its values are parameters. The bounds named in the prompt text are used in `StageUtils.LabelledScenario`.
- `{ ...prev, ...updates }` with a key present but `undefined` would overwrite with `undefined`. The model treats such a key as absent.
- GameStateHook.ApplyPatch states the override rule explicitly for age, stage and the save date, and the frame only for the age/stage patch that ageUp sends. The other nineteen fields follow the same rule in its body.
- The enum string values are taken to be primary, middle, high, bachelor, master and doctor for education, and entry, junior, middle, senior, expert and master for career levels (`Types.EducationName`, `Types.LevelName`). The types module is not part of this model. CareerUtils.CanChangeCareer and CareerUtils.NameIndex depend on these values through the `indexOf` lookups of src/utils/careerUtils.ts:16-26.
- Numbers are exact rationals and ages are unbounded naturals. IEEE rounding, NaN propagation in `||` fallbacks, and 53-bit limits are not modelled.
