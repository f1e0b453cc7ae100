/** The education view's handlers (src/views/education/useEducationHandlers.ts). */
module EducationHandlers {
  import opened Types
  import opened GameStateHook

  const LowerLevelMessage := "不能选择更低的教育水平"

  function RaisedMessage(level: EducationLevel): string { "教育水平提升：" + EducationName(level) }

  /** getAvailableEducationLevels: `educationOrder.slice(currentIndex + 1)`. */
  function GetAvailableEducationLevels(player: Player): (r: seq<EducationLevel>)
    ensures |r| == 5 - EducationIndex(player.education)
    ensures player.education == Doctorate ==> r == []
  {
    var currentIndex := EducationIndex(player.education);
    EducationOrder[currentIndex + 1..]
  }

  /** The offered levels are exactly those strictly above the current one,
      in increasing order. */
  lemma {:induction false} AvailableEducationLevelsExactly(player: Player)
    ensures var r := GetAvailableEducationLevels(player);
            && (forall e :: e in r <==> EducationIndex(e) > EducationIndex(player.education))
            && (forall i, j :: 0 <= i < j < |r| ==> EducationIndex(r[i]) < EducationIndex(r[j]))
  {
    var k := EducationIndex(player.education);
    var r := GetAvailableEducationLevels(player);
    assert r == EducationOrder[k + 1..];
    OrderPositions();
    forall i | 0 <= i < |r|
      ensures EducationIndex(r[i]) == k + 1 + i
    {
      assert r[i] == EducationOrder[k + 1 + i];
    }
    forall e | EducationIndex(e) > k
      ensures e in r
    {
      assert r[EducationIndex(e) - k - 1] == e;
    }
  }

  /** Each level sits at its own index in the education order. */
  lemma OrderPositions()
    ensures forall i :: 0 <= i < |EducationOrder| ==> EducationIndex(EducationOrder[i]) == i
  {
  }

  /** handleSelectEducation: a level not above the current one is refused
      with a log; any higher level, skipping levels if need be, replaces the
      education and is logged. */
  method HandleSelectEducation(game: GameState, level: EducationLevel, logId: string, now: int)
    requires game.player.Some?
    modifies game
    ensures var q := old(game.player).value;
            && (EducationIndex(level) <= EducationIndex(q.education) ==>
                  game.player == old(game.player)
                  && game.logs == old(game.logs) + [LogEntry(logId, now, SystemLog, LowerLevelMessage)])
            && (EducationIndex(level) > EducationIndex(q.education) ==>
                  game.player == Some(q.(education := level))
                  && game.logs == old(game.logs) + [LogEntry(logId, now, SystemLog, RaisedMessage(level))])
    ensures game.player.Some?
    ensures EducationIndex(game.player.value.education) >= EducationIndex(old(game.player).value.education)
    ensures game.gameStarted == old(game.gameStarted)
    ensures forall b :: old(game.StageConsistent(b)) ==> game.StageConsistent(b)
  {
    var player := game.player.value;
    var currentIndex := EducationIndex(player.education);
    var newIndex := EducationIndex(level);
    if newIndex <= currentIndex {
      game.AddLog(SystemLog, LowerLevelMessage, logId, now);
      return;
    }
    game.SetPlayer(player.(education := level));
    game.AddLog(SystemLog, RaisedMessage(level), logId, now);
  }
}
