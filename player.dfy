/**
 * The plain records and enums the engine and the AI share: players
 * (monopoly/core/Player.js), AI levels (monopoly/ai/PlayerAI.js), turn phases
 * (monopoly/core/TurnPhase.js) and player actions (monopoly/core/PlayerAction.js).
 */
module Players {
  import opened Wrappers

  datatype PlayerType = HUMAN | AI

  datatype AILevel = NONSENSICAL | BASIC | NORMAL

  /** `new Player({name, type, level})`; a player created without a level has `null`. */
  datatype Player = Player(name: string, playerType: PlayerType, level: Option<AILevel>)

  /** The phases of a turn, spelled as the source spells them. */
  datatype TurnPhase = PRE_ROLL | Pre_ROLL_TRADE | ROLL | BUY | POST_ROLL | AUCTION

  /** Everything a player may do; only NEXT_PHASE, ROLL and BUY are ever chosen by the AI. */
  datatype PlayerAction =
    | NEXT_PHASE | ROLL | PAY_JAIL_FINE | USE_JAIL_CARD | INIT_TRADE | ACCEPT_TRADE
    | RENEGOTIATE_TRADE | REJECT_TRADE | MORTGAGE | UNMORTGAGE | DEVELOP | SELL | BUY
    | AUCTION | END_TURN | FORFEIT
}
