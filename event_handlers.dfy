/** The event view's handlers (src/views/event/useEventHandlers.ts).  The
    view's `player` prop is the player held by the game state. */
module EventHandlers {
  import opened Types
  import opened GameStateHook
  import AiService
  import EventService
  import EventUtils
  import AttributeUtils
  import StageUtils

  const UnmetConditionsMessage := "当前条件不满足该事件"

  function EventMessage(e: Event): string { "遇到了事件：" + e.title }

  function ChoiceMessage(c: Choice): string { "选择了：" + c.text }

  /** handleTriggerEvent: asks the event service for an event of any type;
      an event whose conditions fail is dropped with a system log, otherwise
      it is logged and returned. */
  method HandleTriggerEvent(game: GameState, call: AiService.AiCall, ids: EventService.FallbackIds,
                            logId: string, now: int) returns (result: Option<Event>)
    requires game.player.Some?
    modifies game
    ensures game.player == old(game.player) && game.gameStarted == old(game.gameStarted)
    ensures var e := EventService.GenerateEvent(call, old(game.player).value, None, ids);
            && (EventUtils.CheckEventConditions(e, old(game.player).value) ==>
                  result == Some(e) && game.logs == old(game.logs) + [LogEntry(logId, now, EventLog, EventMessage(e))])
            && (!EventUtils.CheckEventConditions(e, old(game.player).value) ==>
                  result.None? && game.logs == old(game.logs) + [LogEntry(logId, now, SystemLog, UnmetConditionsMessage)])
  {
    var player := game.player.value;
    var event := EventService.GenerateEvent(call, player, None, ids);
    if !EventUtils.CheckEventConditions(event, player) {
      game.AddLog(SystemLog, UnmetConditionsMessage, logId, now);
      return None;
    }
    game.AddLog(EventLog, EventMessage(event), logId, now);
    return Some(event);
  }

  /** handleChoice: the choice's effects applied to the current player, the
      event and the choice appended to the history, no current event, and
      one choice log.  The choice's requirements are not consulted. */
  method HandleChoice(game: GameState, event: Event, choice: Choice, logId: string, now: int)
    requires game.player.Some?
    modifies game
    ensures game.player.Some?
    ensures var p := game.player.value;
            var q := old(game.player).value;
            && p == q.(attributes := p.attributes, eventHistory := q.eventHistory + [event],
                       choices := q.choices + [choice], currentEvent := None)
            && (forall k :: Bounded(k) ==>
                  p.attributes.Get(k) == AttributeUtils.Clamp(q.attributes.Get(k) + AttributeUtils.Delta(choice.effects, k)))
            && p.attributes.wealth == q.attributes.wealth + AttributeUtils.Delta(choice.effects, Wealth)
    ensures game.logs == old(game.logs) + [LogEntry(logId, now, ChoiceLog, ChoiceMessage(choice))]
    ensures game.gameStarted == old(game.gameStarted)
    ensures forall b :: old(game.StageConsistent(b)) ==> game.StageConsistent(b)
  {
    var prevPlayer := game.player.value;
    var updatedPlayer := AttributeUtils.ApplyEventEffects(prevPlayer, choice.effects);
    updatedPlayer := updatedPlayer.(eventHistory := updatedPlayer.eventHistory + [event]);
    updatedPlayer := updatedPlayer.(choices := updatedPlayer.choices + [choice]);
    updatedPlayer := updatedPlayer.(currentEvent := None);
    game.SetPlayer(updatedPlayer);
    game.AddLog(ChoiceLog, ChoiceMessage(choice), logId, now);
  }

  /** getAvailableChoicesForEvent: the event's choices whose requirements the
      current player meets, in order. */
  function GetAvailableChoicesForEvent(game: GameState, event: Event): (r: seq<Choice>)
    requires game.player.Some?
    reads game
    ensures forall c :: c in r <==> c in event.choices && EventUtils.CheckChoiceRequirements(c, game.player.value)
    ensures r == EventUtils.GetAvailableChoices(event, game.player.value)
  {
    EventUtils.AvailableChoicesExactly(event, game.player.value);
    EventUtils.GetAvailableChoices(event, game.player.value)
  }
}
