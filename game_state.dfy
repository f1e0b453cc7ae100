/** The game-state hook (src/hooks/useGameState.ts): the player cell, the
    started flag and the append-only log, updated in place by the hook's
    callbacks.  Date.now() and generateId are parameters. */
module GameStateHook {
  import opened Types
  import opened StageUtils

  /** `Partial<Player>`: a field that is `Some` overrides the player's. */
  datatype PlayerPatch = PlayerPatch(
    name: Option<string>,
    age: Option<nat>,
    stage: Option<LifeStage>,
    attributes: Option<Attributes>,
    education: Option<EducationLevel>,
    career: Option<Option<Career>>,
    careerLevel: Option<CareerLevel>,
    maritalStatus: Option<MaritalStatus>,
    partner: Option<Option<Person>>,
    children: Option<seq<Person>>,
    parents: Option<seq<Person>>,
    friends: Option<seq<Person>>,
    properties: Option<seq<Holding>>,
    vehicles: Option<seq<Holding>>,
    investments: Option<seq<Holding>>,
    achievements: Option<seq<Holding>>,
    currentEvent: Option<Option<Event>>,
    eventHistory: Option<seq<Event>>,
    choices: Option<seq<Choice>>,
    startDate: Option<int>,
    lastSaveDate: Option<int>)

  const EmptyPatch := PlayerPatch(None, None, None, None, None, None, None, None, None, None, None,
                                  None, None, None, None, None, None, None, None, None, None)

  /** `{ ...prev, ...updates }` followed by refreshing lastSaveDate. */
  function ApplyPatch(p: Player, u: PlayerPatch, now: int): (r: Player)
    ensures r.lastSaveDate == now
    ensures u.age.Some? ==> r.age == u.age.value
    ensures u.age.None? ==> r.age == p.age
    ensures u.stage.Some? ==> r.stage == u.stage.value
    ensures u.stage.None? ==> r.stage == p.stage
    ensures u == AgePatch(u.age.GetOr(p.age), u.stage.GetOr(p.stage)) ==>
              r == p.(age := r.age, stage := r.stage, lastSaveDate := now)
  {
    Player(u.name.GetOr(p.name), u.age.GetOr(p.age), u.stage.GetOr(p.stage),
           u.attributes.GetOr(p.attributes), u.education.GetOr(p.education),
           u.career.GetOr(p.career), u.careerLevel.GetOr(p.careerLevel),
           u.maritalStatus.GetOr(p.maritalStatus), u.partner.GetOr(p.partner),
           u.children.GetOr(p.children), u.parents.GetOr(p.parents), u.friends.GetOr(p.friends),
           u.properties.GetOr(p.properties), u.vehicles.GetOr(p.vehicles),
           u.investments.GetOr(p.investments), u.achievements.GetOr(p.achievements),
           u.currentEvent.GetOr(p.currentEvent), u.eventHistory.GetOr(p.eventHistory),
           u.choices.GetOr(p.choices), u.startDate.GetOr(p.startDate), now)
  }

  /** An empty patch only refreshes the save date. */
  lemma EmptyPatchRefreshesOnly(p: Player, now: int)
    ensures ApplyPatch(p, EmptyPatch, now) == p.(lastSaveDate := now)
  {
  }

  /** Applying the same patch twice at the same time is applying it once. */
  lemma PatchIdempotent(p: Player, u: PlayerPatch, now: int)
    ensures ApplyPatch(ApplyPatch(p, u, now), u, now) == ApplyPatch(p, u, now)
  {
  }

  /** The patch ageUp sends. */
  function AgePatch(age: nat, stage: LifeStage): PlayerPatch {
    EmptyPatch.(age := Some(age), stage := Some(stage))
  }

  /** The player createNewGame builds. */
  function NewPlayer(name: string, attributes: Attributes, now: int): (p: Player)
    ensures p.name == name && p.attributes == attributes
    ensures p.age == 0 && p.stage == Childhood && p.education == Primary
    ensures p.careerLevel == Entry && p.maritalStatus == Single
    ensures p.career.None? && p.partner.None? && p.currentEvent.None?
    ensures p.children == [] && p.parents == [] && p.friends == []
    ensures p.properties == [] && p.vehicles == [] && p.investments == [] && p.achievements == []
    ensures p.eventHistory == [] && p.choices == []
    ensures p.startDate == now && p.lastSaveDate == now
  {
    Player(name, 0, Childhood, attributes, Primary, None, Entry, Single, None,
           [], [], [], [], [], [], [], None, [], [], now, now)
  }

  /** The new player's stage is the one its age maps to whenever childhood
      covers age 0. */
  lemma {:induction false} NewPlayerStageConsistent(b: StageBounds, name: string, attributes: Attributes, now: int)
    requires b.childhood >= 0
    ensures GetCurrentStage(b, NewPlayer(name, attributes, now).age) == NewPlayer(name, attributes, now).stage
  {
    StageAtZero(b);
  }

  function WelcomeMessage(name: string): string {
    "欢迎来到人生模拟器，" + name + "！"
  }

  function BirthdayMessage(age: nat): string {
    "你迎来了 " + NatToString(age) + " 岁生日！"
  }

  class GameState {
    var player: Option<Player>
    var gameStarted: bool
    var logs: seq<LogEntry>

    /** The initial state: no player, not started, no logs. */
    constructor()
      ensures player.None? && !gameStarted && logs == []
    {
      player := None;
      gameStarted := false;
      logs := [];
    }

    /** The player's stage is the one its age maps to. */
    predicate StageConsistent(b: StageBounds)
      reads this
    {
      player.Some? ==> player.value.stage == GetCurrentStage(b, player.value.age)
    }

    /** addLog: one entry appended at the end. */
    method AddLog(kind: LogKind, message: string, id: string, now: int)
      modifies this
      ensures logs == old(logs) + [LogEntry(id, now, kind, message)]
      ensures player == old(player) && gameStarted == old(gameStarted)
    {
      logs := logs + [LogEntry(id, now, kind, message)];
    }

    /** The player cell's own `useState` setter, applied to a value: the
        model assumes the views receive this setter, which replaces the
        player outright (no merge, no save-date refresh). */
    method SetPlayer(p: Player)
      modifies this
      ensures player == Some(p)
      ensures logs == old(logs) && gameStarted == old(gameStarted)
    {
      player := Some(p);
    }

    /** createNewGame: the given attributes, or freshly drawn ones (`drawn`
        stands for generateRandomAttributes()), with a single welcome log. */
    method CreateNewGame(b: StageBounds, name: string, attributes: Option<Attributes>, drawn: Attributes,
                         logId: string, now: int)
      modifies this
      ensures player == Some(NewPlayer(name, attributes.GetOr(drawn), now))
      ensures gameStarted
      ensures logs == [LogEntry(logId, now, SystemLog, WelcomeMessage(name))]
      ensures b.childhood >= 0 ==> StageConsistent(b)
    {
      var newPlayer := NewPlayer(name, attributes.GetOr(drawn), now);
      player := Some(newPlayer);
      gameStarted := true;
      logs := [];
      AddLog(SystemLog, WelcomeMessage(name), logId, now);
      if b.childhood >= 0 {
        NewPlayerStageConsistent(b, name, attributes.GetOr(drawn), now);
      }
    }

    /** updatePlayer: a no-op without a player, else the patch applied. */
    method UpdatePlayer(updates: PlayerPatch, now: int)
      modifies this
      ensures old(player).None? ==> player.None?
      ensures old(player).Some? ==> player == Some(ApplyPatch(old(player).value, updates, now))
      ensures logs == old(logs) && gameStarted == old(gameStarted)
    {
      if player.Some? {
        var updated := ApplyPatch(player.value, updates, now);
        player := Some(updated);
      }
    }

    /** ageUp: one year older, the stage recomputed, and a birthday log. */
    method AgeUp(b: StageBounds, logId: string, now: int)
      modifies this
      ensures old(player).None? ==> player == old(player) && logs == old(logs)
      ensures old(player).Some? ==>
                var p := old(player).value;
                && player == Some(p.(age := p.age + 1, stage := GetCurrentStage(b, p.age + 1),
                                     lastSaveDate := now))
                && logs == old(logs) + [LogEntry(logId, now, SystemLog, BirthdayMessage(p.age + 1))]
      ensures gameStarted == old(gameStarted)
      // Implied by the clauses above and below; stated for callers that
      // only need preservation of the stage invariant.
      ensures StageConsistent(b) <== old(StageConsistent(b))
      ensures old(player).Some? ==> StageConsistent(b)
    {
      if player.None? {
        return;
      }
      var newAge := player.value.age + 1;
      var newStage := GetCurrentStage(b, newAge);
      UpdatePlayer(AgePatch(newAge, newStage), now);
      AddLog(SystemLog, BirthdayMessage(newAge), logId, now);
    }

    /** resetGame: everything back to the initial state. */
    method ResetGame()
      modifies this
      ensures player.None? && !gameStarted && logs == []
    {
      player := None;
      gameStarted := false;
      logs := [];
    }
  }
}
