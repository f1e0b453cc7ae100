/** The event and choice validator (src/utils/eventUtils.ts). */
module EventUtils {
  import opened Types
  import opened Seqs

  predicate AtLeast(bound: Option<int>, x: int) { bound.None? || x >= bound.value }
  predicate AtMost(bound: Option<int>, x: int) { bound.None? || x <= bound.value }
  predicate AtLeastReal(bound: Option<real>, x: real) { bound.None? || x >= bound.value }
  predicate AtMostReal(bound: Option<real>, x: real) { bound.None? || x <= bound.value }

  /** One condition of an event: inclusive age bounds, stage membership and
      inclusive attribute bounds, each optional.  An empty stage list admits
      no stage. */
  predicate ConditionHolds(condition: Condition, player: Player) {
    && (condition.age.Some? ==>
          AtLeast(condition.age.value.min, player.age) && AtMost(condition.age.value.max, player.age))
    && (condition.stage.Some? ==> player.stage in condition.stage.value)
    && (condition.attribute.Some? ==>
          var value := player.attributes.Get(condition.attribute.value.key);
          AtLeastReal(condition.attribute.value.min, value)
          && AtMostReal(condition.attribute.value.max, value))
  }

  /** `conditions.every(...)`. */
  function EveryCondition(conditions: seq<Condition>, player: Player): (ok: bool)
    ensures ok <==> forall i :: 0 <= i < |conditions| ==> ConditionHolds(conditions[i], player)
  {
    if conditions == [] then true
    else ConditionHolds(conditions[0], player) && EveryCondition(conditions[1..], player)
  }

  /** checkEventConditions: every declared condition must hold. */
  function CheckEventConditions(event: Event, player: Player): (ok: bool)
    ensures event.conditions.None? ==> ok
    ensures event.conditions.Some? ==>
              (ok <==> forall c :: c in event.conditions.value ==> ConditionHolds(c, player))
  {
    if event.conditions.None? || |event.conditions.value| == 0 then true
    else EveryCondition(event.conditions.value, player)
  }

  /** A requirement of a choice; one without an attribute always passes. */
  predicate RequirementHolds(req: Requirement, player: Player) {
    req.attribute.Some? ==>
      var value := player.attributes.Get(req.attribute.value);
      AtLeastReal(req.minValue, value) && AtMostReal(req.maxValue, value)
  }

  function EveryRequirement(reqs: seq<Requirement>, player: Player): (ok: bool)
    ensures ok <==> forall i :: 0 <= i < |reqs| ==> RequirementHolds(reqs[i], player)
  {
    if reqs == [] then true
    else RequirementHolds(reqs[0], player) && EveryRequirement(reqs[1..], player)
  }

  /** checkChoiceRequirements: true without requirements, else every one. */
  function CheckChoiceRequirements(choice: Choice, player: Player): (ok: bool)
    ensures choice.requirements.None? ==> ok
    ensures choice.requirements.Some? ==>
              (ok <==> forall r :: r in choice.requirements.value ==> RequirementHolds(r, player))
  {
    if choice.requirements.None? || |choice.requirements.value| == 0 then true
    else EveryRequirement(choice.requirements.value, player)
  }

  /** getAvailableChoices: the choices whose requirements hold, in order;
      possibly none. */
  function GetAvailableChoices(event: Event, player: Player): (r: seq<Choice>)
  {
    Filter(event.choices, (c: Choice) => CheckChoiceRequirements(c, player))
  }

  lemma {:induction false} AvailableChoicesExactly(event: Event, player: Player)
    ensures var r := GetAvailableChoices(event, player);
            (forall c :: c in r <==> c in event.choices && CheckChoiceRequirements(c, player))
            && (forall c :: multiset(r)[c] ==
                  if CheckChoiceRequirements(c, player) then multiset(event.choices)[c] else 0)
            && IsSubsequence(r, event.choices)
  {
    FilterIsSubsequence(event.choices, (c: Choice) => CheckChoiceRequirements(c, player));
    FilterMultiplicity(event.choices, (c: Choice) => CheckChoiceRequirements(c, player));
  }

  /** Choices without requirements are always all available. */
  lemma {:induction false} UnrestrictedChoicesAllAvailable(event: Event, player: Player)
    requires forall i :: 0 <= i < |event.choices| ==> event.choices[i].requirements.None?
    ensures GetAvailableChoices(event, player) == event.choices
  {
  }

  /** A choice before it is given an id. */
  datatype ChoiceDraft = ChoiceDraft(text: string, effects: seq<Effect>,
                                     requirements: Option<seq<Requirement>>)

  function WithId(d: ChoiceDraft, id: string): Choice {
    Choice(id, d.text, d.effects, d.requirements)
  }

  function MapWithIds(drafts: seq<ChoiceDraft>, ids: seq<string>): (r: seq<Choice>)
    requires |ids| == |drafts|
    ensures |r| == |drafts|
    ensures forall i :: 0 <= i < |r| ==> r[i] == WithId(drafts[i], ids[i])
  {
    if drafts == [] then [] else [WithId(drafts[0], ids[0])] + MapWithIds(drafts[1..], ids[1..])
  }

  /** createEvent: one choice per draft, in order, each with its fresh id;
      the ids come from generateId and are parameters here. */
  function CreateEvent(title: string, description: string, kind: EventType,
                       choices: seq<ChoiceDraft>, eventId: string, choiceIds: seq<string>): (e: Event)
    requires |choiceIds| == |choices|
    ensures e.title == title && e.description == description && e.kind == kind && e.id == eventId
    ensures |e.choices| == |choices|
    ensures forall i :: 0 <= i < |choices| ==>
              e.choices[i].id == choiceIds[i] && e.choices[i].text == choices[i].text
              && e.choices[i].effects == choices[i].effects
              && e.choices[i].requirements == choices[i].requirements
    ensures !e.aiGenerated && e.conditions.None?
  {
    Event(eventId, kind, title, description, MapWithIds(choices, choiceIds), None, false)
  }

  /** createChoice: a choice with a fresh id and no requirements. */
  function CreateChoice(text: string, effects: seq<Effect>, id: string): (c: Choice)
    ensures c.text == text && c.effects == effects && c.id == id && c.requirements.None?
  {
    Choice(id, text, effects, None)
  }

  /** validateEvent: non-empty title and description and at least two choices. */
  function ValidateEvent(event: Event): (ok: bool)
    ensures ok <==> event.title != [] && event.description != [] && |event.choices| >= 2
  {
    if |event.title| == 0 || |event.description| == 0 then false
    else if |event.choices| < 2 then false
    else true
  }

  /** An event whose conditions are absent or empty is always eligible. */
  lemma NoConditionsAlwaysEligible(event: Event, player: Player)
    requires event.conditions.None? || event.conditions.value == []
    ensures CheckEventConditions(event, player)
  {
  }
}
