/**
 * The placeholder AI (monopoly/ai/NonsensicalAI.js): in each turn phase it
 * picks one action without looking at the game. It ends the pre-roll and
 * post-roll phases, rolls when asked to roll, buys the tile it stands on
 * whenever buying is offered, and refuses any phase it does not know.
 *
 * The game argument of every `consider*` call is never read, so it is not a
 * parameter here; the functions are pure, so neither the game nor the player
 * can change.
 */
module NonsensicalAI {
  import opened Wrappers
  import opened Players
  import opened Game

  /** One chosen action; only a BUY names the tile (`tileId`) it is for. */
  datatype Decision = Decision(action: PlayerAction, tileId: Option<int>)

  /** `NonsensicalAIError`, thrown for a phase the AI does not handle. */
  datatype AiError = NonsensicalAIError(message: string)

  /** The phases `considerAction` answers. */
  const HandledPhases: set<TurnPhase> := {PRE_ROLL, TurnPhase.ROLL, TurnPhase.BUY, POST_ROLL}

  /** The enum constant's name, as the error message spells it. */
  function PhaseName(phase: TurnPhase): (name: string)
    ensures |name| > 0
  {
    match phase
    case PRE_ROLL => "PRE_ROLL"
    case Pre_ROLL_TRADE => "Pre_ROLL_TRADE"
    case ROLL => "ROLL"
    case BUY => "BUY"
    case POST_ROLL => "POST_ROLL"
    case AUCTION => "AUCTION"
  }

  /** Before the roll the AI does nothing and moves on. */
  function ConsiderPreRoll(player: InGamePlayer, possibleActions: seq<PlayerAction>): (ds: seq<Decision>)
    ensures |ds| == 1 && ds[0].action == NEXT_PHASE && ds[0].tileId.None?
  {
    [Decision(NEXT_PHASE, None)]
  }

  /** In the roll phase the AI rolls. */
  function ConsiderRoll(player: InGamePlayer, possibleActions: seq<PlayerAction>): (ds: seq<Decision>)
    ensures |ds| == 1 && ds[0].action == PlayerAction.ROLL && ds[0].tileId.None?
  {
    [Decision(PlayerAction.ROLL, None)]
  }

  /** The AI buys the tile it stands on exactly when buying is offered; otherwise it moves on. */
  function ConsiderBuy(player: InGamePlayer, possibleActions: seq<PlayerAction>): (ds: seq<Decision>)
    ensures |ds| == 1
    ensures ds[0].action == PlayerAction.BUY <==> PlayerAction.BUY in possibleActions
    ensures ds[0].action == PlayerAction.BUY ==> ds[0].tileId == Some(player.onTile)
    ensures ds[0].action != PlayerAction.BUY ==> ds[0] == Decision(NEXT_PHASE, None)
  {
    if PlayerAction.BUY in possibleActions then [Decision(PlayerAction.BUY, Some(player.onTile))] else [Decision(NEXT_PHASE, None)]
  }

  /** After the roll the AI does nothing and moves on. */
  function ConsiderPostRoll(player: InGamePlayer, possibleActions: seq<PlayerAction>): (ds: seq<Decision>)
    ensures |ds| == 1 && ds[0].action == NEXT_PHASE && ds[0].tileId.None?
  {
    [Decision(NEXT_PHASE, None)]
  }

  /**
   * `considerAction`: answers exactly the four handled phases, each with a
   * single decision, and throws for the others (AUCTION, Pre_ROLL_TRADE). It
   * buys only in the buy phase and only when buying is offered, and then buys
   * the tile the player stands on; it rolls only in the roll phase; every
   * other answer ends the phase.
   */
  function ConsiderAction(player: InGamePlayer, currentPhase: TurnPhase, possibleActions: seq<PlayerAction>): (r: Result<seq<Decision>, AiError>)
    ensures r.Ok? <==> currentPhase in HandledPhases
    ensures r.Err? ==> r.error == NonsensicalAIError("I do not understand what this phase is! " + PhaseName(currentPhase))
    ensures r.Ok? ==> |r.value| == 1 && r.value[0].action in {NEXT_PHASE, PlayerAction.ROLL, PlayerAction.BUY}
    ensures r.Ok? ==> (r.value[0].action == PlayerAction.BUY <==> currentPhase == TurnPhase.BUY && PlayerAction.BUY in possibleActions)
    ensures r.Ok? ==> (r.value[0].action == PlayerAction.ROLL <==> currentPhase == TurnPhase.ROLL)
    ensures r.Ok? ==> (r.value[0].tileId.Some? <==> r.value[0].action == PlayerAction.BUY)
    ensures r.Ok? && r.value[0].action == PlayerAction.BUY ==> r.value[0].tileId == Some(player.onTile)
  {
    if currentPhase == PRE_ROLL then
      Ok(ConsiderPreRoll(player, possibleActions))
    else if currentPhase == TurnPhase.ROLL then
      Ok(ConsiderRoll(player, possibleActions))
    else if currentPhase == TurnPhase.BUY then
      Ok(ConsiderBuy(player, possibleActions))
    else if currentPhase == POST_ROLL then
      Ok(ConsiderPostRoll(player, possibleActions))
    else
      Err(NonsensicalAIError("I do not understand what this phase is! " + PhaseName(currentPhase)))
  }

  /** The answer does not depend on the actions offered, except in the buy phase. */
  lemma OfferedMattersOnlyToBuy(player: InGamePlayer, phase: TurnPhase, offered1: seq<PlayerAction>, offered2: seq<PlayerAction>)
    requires phase != TurnPhase.BUY || (PlayerAction.BUY in offered1 <==> PlayerAction.BUY in offered2)
    ensures ConsiderAction(player, phase, offered1) == ConsiderAction(player, phase, offered2)
  {
  }
}
