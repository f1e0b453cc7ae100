/** The career view's handlers (src/views/career/useCareerHandlers.ts). */
module CareerHandlers {
  import opened Types
  import opened GameStateHook
  import CareerService
  import CareerUtils
  import Seqs

  const EducationTooLowMessage := "不满足该职业的教育要求"
  const CannotAdvanceMessage := "当前无法升级职业"

  function SelectedMessage(c: Career): string { "选择了职业：" + c.name }

  function AdvancedMessage(level: CareerLevel): string { "职业等级提升：" + LevelName(level) }

  /** getAvailableCareers for the current player. */
  function GetAvailableCareers(game: GameState, catalog: seq<Career>): (r: seq<Career>)
    requires game.player.Some?
    reads game
    ensures r == CareerService.GetAvailableCareers(catalog, game.player.value)
    ensures forall c :: c in r <==>
              (c in catalog && EducationIndex(c.educationRequired) <= EducationIndex(game.player.value.education))
    ensures Seqs.IsSubsequence(r, catalog)
  {
    CareerService.AvailableCareersExactly(catalog, game.player.value);
    CareerService.GetAvailableCareers(catalog, game.player.value)
  }

  /** handleSelectCareer: refused with a log below the required education;
      otherwise the career is taken at entry level, even when it is the
      current one. */
  method HandleSelectCareer(game: GameState, career: Career, logId: string, now: int)
    requires game.player.Some?
    modifies game
    ensures var q := old(game.player).value;
            && (!CareerUtils.CanChangeCareer(q, career) ==>
                  game.player == old(game.player)
                  && game.logs == old(game.logs) + [LogEntry(logId, now, SystemLog, EducationTooLowMessage)])
            && (CareerUtils.CanChangeCareer(q, career) ==>
                  game.player == Some(q.(career := Some(career), careerLevel := Entry))
                  && game.logs == old(game.logs) + [LogEntry(logId, now, SystemLog, SelectedMessage(career))])
    ensures game.gameStarted == old(game.gameStarted)
    ensures forall b :: old(game.StageConsistent(b)) ==> game.StageConsistent(b)
  {
    var player := game.player.value;
    if !CareerUtils.CanChangeCareer(player, career) {
      game.AddLog(SystemLog, EducationTooLowMessage, logId, now);
      return;
    }
    game.SetPlayer(player.(career := Some(career), careerLevel := Entry));
    game.AddLog(SystemLog, SelectedMessage(career), logId, now);
  }

  /** handleAdvanceCareer: commits advanceCareer only when the level changed. */
  method HandleAdvanceCareer(game: GameState, logId: string, now: int)
    requires game.player.Some?
    modifies game
    ensures var q := old(game.player).value;
            var updated := CareerService.AdvanceCareer(q);
            && (updated.careerLevel != q.careerLevel ==>
                  game.player == Some(updated)
                  && game.logs == old(game.logs) + [LogEntry(logId, now, SystemLog, AdvancedMessage(updated.careerLevel))])
            && (updated.careerLevel == q.careerLevel ==>
                  game.player == old(game.player)
                  && game.logs == old(game.logs) + [LogEntry(logId, now, SystemLog, CannotAdvanceMessage)])
    ensures game.player.value == old(game.player).value.(careerLevel := game.player.value.careerLevel)
    ensures game.gameStarted == old(game.gameStarted)
    ensures forall b :: old(game.StageConsistent(b)) ==> game.StageConsistent(b)
  {
    var player := game.player.value;
    var updated := CareerService.AdvanceCareer(player);
    if updated.careerLevel != player.careerLevel {
      game.SetPlayer(updated);
      game.AddLog(SystemLog, AdvancedMessage(updated.careerLevel), logId, now);
    } else {
      game.AddLog(SystemLog, CannotAdvanceMessage, logId, now);
    }
  }

  /** The view's calculateIncome is the service's. */
  function CalculateIncome(game: GameState, table: map<CareerLevel, real>): (income: real)
    requires game.player.Some?
    reads game
    ensures income == CareerService.CalculateIncome(table, game.player.value)
    ensures game.player.value.career.None? ==> income == 0.0
  {
    CareerService.CalculateIncome(table, game.player.value)
  }
}
