/** Event orchestration (src/services/eventService.ts): a preset event if
    there is one, else the AI event, else a fixed fallback per type. */
module EventService {
  import opened Types
  import AiService
  import AiConfig
  import EventUtils

  /** checkPresetEvents: no preset events exist yet. */
  function CheckPresetEvents(player: Player, eventType: Option<EventType>): (r: Option<Event>)
    ensures r.None?
  {
    None
  }

  /** The generateId results a fallback event uses: one for the event and one
      per choice. */
  datatype FallbackIds = FallbackIds(event: string, first: string, second: string)

  function AttrEffect(k: AttrKey, v: real): Effect {
    Effect(AttributeEffect, Some(k), v)
  }

  function OpportunityFallback(ids: FallbackIds): Event {
    Event(ids.event, Opportunity, "意外的机会",
          "你遇到了一个不错的机会，虽然不确定结果如何，但值得尝试。",
          [Choice(ids.first, "抓住这个机会", [AttrEffect(Happiness, 5.0), AttrEffect(Stress, 3.0)], None),
           Choice(ids.second, "谨慎考虑", [AttrEffect(Stress, -2.0)], None)],
          None, false)
  }

  function ChallengeFallback(ids: FallbackIds): Event {
    Event(ids.event, Challenge, "面临的挑战", "你遇到了一个挑战，需要做出选择来应对。",
          [Choice(ids.first, "勇敢面对", [AttrEffect(Happiness, 3.0), AttrEffect(Stress, 5.0)], None),
           Choice(ids.second, "寻求帮助", [AttrEffect(Stress, -3.0)], None)],
          None, false)
  }

  function DailyFallback(ids: FallbackIds): Event {
    Event(ids.event, Daily, "日常生活", "这是普通的一天，你过着平静的生活。",
          [Choice(ids.first, "享受当下", [AttrEffect(Happiness, 2.0)], None)],
          None, false)
  }

  /** getFallbackEvent: the table has opportunity, challenge and daily; any
      other type, or none, gives the daily event. */
  function GetFallbackEvent(player: Player, eventType: Option<EventType>, ids: FallbackIds): (e: Event)
    ensures eventType == Some(Opportunity) ==> e == OpportunityFallback(ids)
    ensures eventType == Some(Challenge) ==> e == ChallengeFallback(ids)
    ensures eventType != Some(Opportunity) && eventType != Some(Challenge) ==> e == DailyFallback(ids)
    ensures !e.aiGenerated && e.conditions.None? && e.id == ids.event
    ensures e.kind in {Opportunity, Challenge, Daily}
  {
    match eventType
    case Some(Opportunity) => OpportunityFallback(ids)
    case Some(Challenge) => ChallengeFallback(ids)
    case _ => DailyFallback(ids)
  }

  /** Each entry's type is its key and its effects are fixed. */
  lemma FallbackTableContents(ids: FallbackIds)
    ensures var o := OpportunityFallback(ids);
            o.kind == Opportunity && |o.choices| == 2
            && o.choices[0].effects == [AttrEffect(Happiness, 5.0), AttrEffect(Stress, 3.0)]
            && o.choices[1].effects == [AttrEffect(Stress, -2.0)]
    ensures var c := ChallengeFallback(ids);
            c.kind == Challenge && |c.choices| == 2
            && c.choices[0].effects == [AttrEffect(Happiness, 3.0), AttrEffect(Stress, 5.0)]
            && c.choices[1].effects == [AttrEffect(Stress, -3.0)]
    ensures var d := DailyFallback(ids);
            d.kind == Daily && |d.choices| == 1
            && d.choices[0].effects == [AttrEffect(Happiness, 2.0)]
  {
  }

  /** The daily fallback has a single choice, so validateEvent rejects it;
      the other two pass. */
  lemma FallbackValidity(ids: FallbackIds)
    ensures !EventUtils.ValidateEvent(DailyFallback(ids))
    ensures EventUtils.ValidateEvent(OpportunityFallback(ids))
    ensures EventUtils.ValidateEvent(ChallengeFallback(ids))
  {
  }

  /** The requested type is only honoured for the types the table knows. */
  lemma {:induction false} FallbackKindFollowsRequest(player: Player, eventType: EventType, ids: FallbackIds)
    ensures GetFallbackEvent(player, Some(eventType), ids).kind == eventType
            <==> eventType in {Opportunity, Challenge, Daily}
  {
  }

  /** generateEvent: the preset event, else the AI event, else, when the AI
      path fails for any reason, the fallback; it never fails itself. */
  function GenerateEvent(call: AiService.AiCall, player: Player, eventType: Option<EventType>,
                         ids: FallbackIds): (e: Event)
    ensures AiService.GenerateEvent(call, player, eventType).Ok? ==>
              e == AiService.GenerateEvent(call, player, eventType).value
    ensures AiService.GenerateEvent(call, player, eventType).Err? ==>
              e == GetFallbackEvent(player, eventType, ids)
  {
    var presetEvent := CheckPresetEvents(player, eventType);
    match presetEvent
    case Some(preset) => preset
    case None =>
      match AiService.GenerateEvent(call, player, eventType)
      case Ok(event) => event
      case Err(_) => GetFallbackEvent(player, eventType, ids)
  }

  /** With an invalid AI configuration the result is the deterministic
      fallback for the requested type. */
  lemma {:induction false} InvalidConfigGivesFallback(call: AiService.AiCall, player: Player,
                                                     eventType: Option<EventType>, ids: FallbackIds)
    requires !AiConfig.ValidateAIConfig(call.env, call.loader)
    ensures GenerateEvent(call, player, eventType, ids) == GetFallbackEvent(player, eventType, ids)
  {
  }

  /** Every generated event is AI-generated, the AI service's own fallback,
      or this service's fallback; generated events carry no conditions. */
  lemma {:induction false} GeneratedEventProvenance(call: AiService.AiCall, player: Player,
                                                   eventType: Option<EventType>, ids: FallbackIds)
    ensures var e := GenerateEvent(call, player, eventType, ids);
            && (e.aiGenerated || e == AiService.AiFallbackEvent(eventType, call.now)
                || e == GetFallbackEvent(player, eventType, ids))
            && e.conditions.None?
  {
  }

  /** Generated events have no conditions, so they are always eligible: the
      "conditions not met" branch of the event view is never taken. */
  lemma {:induction false} GeneratedEventAlwaysEligible(call: AiService.AiCall, player: Player,
                                                       eventType: Option<EventType>, ids: FallbackIds)
    ensures EventUtils.CheckEventConditions(GenerateEvent(call, player, eventType, ids), player)
  {
    GeneratedEventProvenance(call, player, eventType, ids);
    EventUtils.NoConditionsAlwaysEligible(GenerateEvent(call, player, eventType, ids), player);
  }
}
