/** The relationship view's handlers
    (src/views/relationship/useRelationshipHandlers.ts).  The fresh person id
    that the service draws is a parameter. */
module RelationshipHandlers {
  import opened Types
  import opened GameStateHook
  import RelationshipService

  const NoPartnerToMarryMessage := "没有伴侣，无法结婚"
  const NoPartnerToDivorceMessage := "没有伴侣，无法离婚"

  /** The first friend with that id, as `find` returns it. */
  function FindFriend(friends: seq<Person>, friendId: string): (r: Option<Person>)
    ensures r.None? <==> forall i :: 0 <= i < |friends| ==> friends[i].id != friendId
    ensures r.Some? ==> r.value in friends && r.value.id == friendId
    ensures r.Some? ==> exists i :: 0 <= i < |friends| && friends[i] == r.value &&
                          forall j :: 0 <= j < i ==> friends[j].id != friendId
  {
    if friends == [] then None
    else if friends[0].id == friendId then Some(friends[0])
    else FindFriend(friends[1..], friendId)
  }

  /** handleAddFriend */
  method HandleAddFriend(game: GameState, friend: PersonDraft, id: string, logId: string, now: int)
    requires game.player.Some?
    modifies game
    ensures game.player == Some(RelationshipService.AddFriend(old(game.player).value, friend, id))
    ensures game.logs == old(game.logs) + [LogEntry(logId, now, SystemLog, "添加了朋友：" + friend.name)]
    ensures game.gameStarted == old(game.gameStarted)
    ensures forall b :: old(game.StageConsistent(b)) ==> game.StageConsistent(b)
  {
    var updated := RelationshipService.AddFriend(game.player.value, friend, id);
    game.SetPlayer(updated);
    game.AddLog(SystemLog, "添加了朋友：" + friend.name, logId, now);
  }

  /** handleRemoveFriend: always applies removeFriend, logging only when a
      friend with that id existed. */
  method HandleRemoveFriend(game: GameState, friendId: string, logId: string, now: int)
    requires game.player.Some?
    modifies game
    ensures game.player == Some(RelationshipService.RemoveFriend(old(game.player).value, friendId))
    ensures var found := FindFriend(old(game.player).value.friends, friendId);
            && (found.Some? ==> game.logs == old(game.logs) + [LogEntry(logId, now, SystemLog, "移除了朋友：" + found.value.name)])
            && (found.None? ==> game.logs == old(game.logs) && game.player == old(game.player))
    ensures game.gameStarted == old(game.gameStarted)
    ensures forall b :: old(game.StageConsistent(b)) ==> game.StageConsistent(b)
  {
    var player := game.player.value;
    var friend := FindFriend(player.friends, friendId);
    var updated := RelationshipService.RemoveFriend(player, friendId);
    game.SetPlayer(updated);
    if friend.Some? {
      game.AddLog(SystemLog, "移除了朋友：" + friend.value.name, logId, now);
    } else {
      RelationshipService.RemoveAbsentFriendIsNoOp(player, friendId);
    }
  }

  /** handleAddPartner */
  method HandleAddPartner(game: GameState, partner: PersonDraft, id: string, logId: string, now: int)
    requires game.player.Some?
    modifies game
    ensures game.player == Some(RelationshipService.AddPartner(old(game.player).value, partner, id))
    ensures game.logs == old(game.logs) + [LogEntry(logId, now, SystemLog, "遇到了伴侣：" + partner.name)]
    ensures game.gameStarted == old(game.gameStarted)
    ensures forall b :: old(game.StageConsistent(b)) ==> game.StageConsistent(b)
  {
    var updated := RelationshipService.AddPartner(game.player.value, partner, id);
    game.SetPlayer(updated);
    game.AddLog(SystemLog, "遇到了伴侣：" + partner.name, logId, now);
  }

  /** handleMarry: without a partner only a log; otherwise MARRIED. */
  method HandleMarry(game: GameState, logId: string, now: int)
    requires game.player.Some?
    modifies game
    ensures var q := old(game.player).value;
            && (q.partner.None? ==>
                  game.player == old(game.player)
                  && game.logs == old(game.logs) + [LogEntry(logId, now, SystemLog, NoPartnerToMarryMessage)])
            && (q.partner.Some? ==>
                  game.player == Some(q.(maritalStatus := Married))
                  && game.logs == old(game.logs)
                       + [LogEntry(logId, now, SystemLog, "与 " + q.partner.value.name + " 结婚了！")])
    ensures game.gameStarted == old(game.gameStarted)
    ensures forall b :: old(game.StageConsistent(b)) ==> game.StageConsistent(b)
  {
    var player := game.player.value;
    if player.partner.None? {
      game.AddLog(SystemLog, NoPartnerToMarryMessage, logId, now);
      return;
    }
    var updated := RelationshipService.Marry(player);
    game.SetPlayer(updated);
    game.AddLog(SystemLog, "与 " + player.partner.value.name + " 结婚了！", logId, now);
  }

  /** handleDivorce: without a partner only a log, unlike the service's
      unconditional divorce; otherwise no partner and DIVORCED. */
  method HandleDivorce(game: GameState, logId: string, now: int)
    requires game.player.Some?
    modifies game
    ensures var q := old(game.player).value;
            && (q.partner.None? ==>
                  game.player == old(game.player)
                  && game.logs == old(game.logs) + [LogEntry(logId, now, SystemLog, NoPartnerToDivorceMessage)])
            && (q.partner.Some? ==>
                  game.player == Some(q.(partner := None, maritalStatus := Divorced))
                  && game.logs == old(game.logs)
                       + [LogEntry(logId, now, SystemLog, "与 " + q.partner.value.name + " 离婚了")])
    ensures game.gameStarted == old(game.gameStarted)
    ensures forall b :: old(game.StageConsistent(b)) ==> game.StageConsistent(b)
  {
    var player := game.player.value;
    if player.partner.None? {
      game.AddLog(SystemLog, NoPartnerToDivorceMessage, logId, now);
      return;
    }
    var partnerName := player.partner.value.name;
    var updated := RelationshipService.Divorce(player);
    game.SetPlayer(updated);
    game.AddLog(SystemLog, "与 " + partnerName + " 离婚了", logId, now);
  }

  /** handleAddChild */
  method HandleAddChild(game: GameState, child: PersonDraft, id: string, logId: string, now: int)
    requires game.player.Some?
    modifies game
    ensures game.player == Some(RelationshipService.AddChild(old(game.player).value, child, id))
    ensures game.logs == old(game.logs) + [LogEntry(logId, now, SystemLog, "有了孩子：" + child.name)]
    ensures game.gameStarted == old(game.gameStarted)
    ensures forall b :: old(game.StageConsistent(b)) ==> game.StageConsistent(b)
  {
    var updated := RelationshipService.AddChild(game.player.value, child, id);
    game.SetPlayer(updated);
    game.AddLog(SystemLog, "有了孩子：" + child.name, logId, now);
  }
}
