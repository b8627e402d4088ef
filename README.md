# react-monopoly rules engine in Dafny

This project models the rules engine of react-monopoly (`monopoly/core`) and its placeholder AI (`monopoly/ai/NonsensicalAI.js`). It also proves properties of that model.

## What is modelled

- **Tiles** (`board_tile.dfy`, module `BoardTiles`).
  - Models the tile kinds, the property colours and the `BoardTile` record.
  - Models the classification predicates `isBuyable`, `isMortgageable` and `isDevelopable`, and the `getRent` stub.
  - Models the eleven factories, each writing its defaults and then spreading the caller's arguments over them.
- **The UK board** (`board_data.dfy`, module `BoardData`).
  - The `ukTileData` table: four rows of ten tiles, transcribed with every name, code, price, mortgage value, house cost and rent table.
  - Lemmas state what the engine and the cards rely on:
    - where each kind of tile sits, including GO first;
    - that codes are unique and that the codes the cards jump to exist;
    - the colour groups and the shape of the rent tables.
- **Cards** (`monopoly_card.dfy`, module `MonopolyCards`).
  - The `MonopolyCard` record with `keepable` defaulting to false, and the `chanceCard` and `commChestCard` factories.
- **Players, phases and actions** (`player.dfy`, module `Players`).
  - The plain enums and records the engine and the AI share.
- **The game** (`monopoly_game.dfy`, module `Game`).
  - The class `MonopolyGame`. It holds:
    - the board of tile records;
    - the seated players;
    - the current player index and the game state;
    - a log of the calls the engine makes into members the source does not define (`payRent`, `passGo`).
  - The constructor is `Create`. It builds the board row by row and seats the players, then runs the board check.
  - The lookups (`getTileIndex`, `getTilebyId`, `findTileByType`, `getPlayerById`, `getPlayerAssets`) are functions over the board and the player list.
  - The moves (`advancePlayer`, `advancePlayerToTile`, `goToJail`) and `determinePlayerOrder` are methods. The seating sort is an insertion sort proved to give a permutation, sorted by non-increasing dice total.
  - From `run`, the model keeps the READY check, the jail bookkeeping at the start of a turn and the dice loop.
- **Card effects** (`card_data.dfy`, module `CardData`).
  - Each kind of effect is a method on the game, and `ApplyEffect` dispatches between them.
  - Both UK decks are transcribed with every name, code and description, paired with their effects.
  - Each effect states exactly how it changes the players. Every effect keeps the players' ids. The money of all players together changes only by what the bank pays or charges, so the transfers between players conserve it.
  - Moving to the nearest utility or railroad is proved to pick a tile at the least distance, the earliest such tile on ties.
- **The AI** (`nonsensical_ai.dfy`, module `NonsensicalAI`).
  - `considerAction` and the four per-phase functions, as pure functions returning a `Result`.

### Readings chosen where the source is incomplete

- **Undefined helpers become a `Host`.**
  - The card effects call `calcTileDistance`, `getTileByCode` and `isRentDue`, which no file defines. They are fields of a `Host` record of function values, constrained only by the preconditions the effects need:
    - `FindsCodes`: every code on the board is found;
    - `ForwardDistances`: distances go forward, modulo the board length, and only the UK lemmas assume this.
  - `payRent` and `passGo` are also undefined. They are recorded in the game's `calls` log.
  - `getTileById` (capital B) is read as the defined `getTilebyId`.
- **A position is a board index. This corrects the source, it is not equivalent to it.**
  - Seating stores the id of board[0], whose index is 0 (`Game.FirstTileIdIsIndexZero`). `advancePlayer` then stores a bare number in `onTileId` (MonopolyGame.js:89).
  - Every lookup compares `t.id == tileId`. An id "list-place" converts to NaN, so it never equals that number. From a player's second move on, even the corrected `getTileIndex` returns -1, the player lands on `pos - 1`, and `getTileById(player.onTileId).id` throws in the card effects (CardData.js:13, 115).
  - `Game.NumericOnTileIdIsLost` models this as written, and the "## Findings" table records it. The rest of the model keeps the index, so every move starts from where the player stands.
  - `closest.id` passed where `advancePlayerToTile` expects a tile (CardData.js:29) is read as the tile itself.
  - The two "Advance to GO" cards also pass `tile.id` where a tile is expected (CardData.js:44, 203). As written, `tile.id.id` is `undefined`, so the corrected `getTileIndex` gives -1 and `advancePlayerToTile` moves the player back one square instead of onto GO. `CardData.AdvanceToGo` reads the argument as the GO tile.
- **Undeclared names are read as their evident meaning.**
  - `run` calls `this.advancePlayer(player, …)` (MonopolyGame.js:254), but only `currentPlayer` is declared (MonopolyGame.js:189), so as written every move throws a ReferenceError. `Game.MonopolyGame.DiceLoop` moves the current player, `ingamePlayers[cur].id`.
  - The constructor builds `new PlayerAI(level)` for an AI player (MonopolyGame.js:57). `PlayerAI` is not imported (MonopolyGame.js:1-6) and `level` is never declared, so as written building a game with an AI player throws. The model seats that player with `hasAi` set, and `Game.MonopolyGame.Create` returns the game.
- **Which players and which square.**
  - The constructor pushes to a bare `ingamePlayers`, read as the game's list.
  - `this.inGamePlayers` in the three pay-each-player cards is read as the game's seated players.
  - `goToJail` asks `findTileByType` for GO_TO_JAIL. With the corrected lookup the jailed player is placed on the GO_TO_JAIL corner, square 30 of the UK board. The JAIL square is 10.
- **The code is followed where it disagrees with its names.**
  - `advancePlayer` is modelled as written: it wraps only when the player starts on the last tile. `Game.AdvanceStaysOnBoard` states when a move stays on the board.
  - `Game.AdvanceByForwardDistance` and `CardData.UkAdvanceToTrafalgar` show a card move overshooting the board by its length instead of passing GO.
  - `advanceToAndPassGo` never calls `passGo` despite its name, and the model does not either.
- **Crashes become preconditions; thrown errors become values.**
  - Where the source would crash on an `undefined` lookup, for example a player id that is not seated, the model has a precondition.
  - The errors the source throws on purpose are values: `InvalidBoardConfigError`, `InvalidGameStateError` and `NonsensicalAIError`.
- **The jail turn never releases a player.** `JailTurn` charges 50 on every turn from the third on and never releases the player, as the source does.

## Model

| member | source | states |
|---|---|---|
| BoardTiles.BoardTile.GetRent | monopoly/core/BoardTile.js:72-75 | the rent is 10 whatever the number of houses |
| BoardTiles.BoardTileAsWritten | monopoly/core/BoardTile.js:40-48 | the constructor as written keeps no code and no house cost, whatever it is given |
| BoardTiles.AsWrittenLosesCode | monopoly/core/BoardTile.js:40-48 | two table rows that differ only in their code (commchest_01, commchest_02) become equal tiles as written, and stay distinct with the corrected constructor |
| BoardTiles.NewBoardTileRoundTrip | monopoly/core/BoardTile.js:40-48 | the corrected constructor stores every field unchanged: reading the fields back gives the arguments |
| BoardTiles.TileKindPredicates | monopoly/core/BoardTile.js:50-70 | buyable exactly for PROPERTY, RAILROAD and UTILITY; mortgageable exactly when buyable; developable exactly for PROPERTY, hence buyable |
| BoardTiles.FactoryOwnableIsBuyable | monopoly/core/BoardTile.js:78-120 | unless the caller overrides them, the three ownable factories set ownable true and the other eight false, so ownable equals buyable; exactly the non-ownable factories supply a default name |
| BoardTiles.CallerArgsOverride | monopoly/core/BoardTile.js:90-120 | a field the caller passes wins over the factory default; fields left out keep the default, which is absent except for name, type and ownable |
| BoardData.UkTileDataShape | monopoly/core/BoardData.js:18-475 | four rows of ten, forty tiles; tile 10r+s of the board is column s of row r |
| BoardData.UkKinds | monopoly/core/BoardData.js:18-475 | GO, JAIL, FREE_PARKING and GO_TO_JAIL occur exactly once, at 0, 10, 20 and 30; railroads exactly at 5, 15, 25, 35; utilities exactly at 12 and 28; 22 streets exactly at the listed squares |
| BoardData.UkColorGroups | monopoly/core/BoardData.js:23-473 | a tile has a colour exactly when it is a street; each colour group sits exactly on its squares, two for brown and dark blue, three for the others |
| BoardData.UkCodesUnique | monopoly/core/BoardData.js:18-475 | every tile has a code and no two tiles share one |
| BoardData.UkCardTargets | monopoly/core/BoardData.js:63-460 | red_03, purple_01, rr_01 and darkblue_02 name exactly the squares 24, 11, 5 and 39 |
| BoardData.UkRentTables | monopoly/core/BoardData.js:18-475 | every street's rent table has the keys '0'..'4' and 'h' with strictly rising rents; every railroad carries the railroad table; utilities have none |
| BoardData.RailroadRentDoubles | monopoly/core/BoardData.js:61-72 | the railroad table has keys '1r'..'4r' with rents 25, 50, 100, 200, each double the one before |
| MonopolyCards.NewMonopolyCardFields | monopoly/core/MonopolyCard.js:10-17 | the constructor copies type, name, code, description and effect unchanged; keepable is false unless given |
| MonopolyCards.FactoryCardTypes | monopoly/core/MonopolyCard.js:20-26 | chanceCard gives type CHANCE and commChestCard type COMM_CHEST unless the caller passes a type; every other field is the constructor's |
| Game.RollDie | monopoly/core/MonopolyGame.js:72-73 | a die shows 1 to 6 for any random number in [0, 1) |
| Game.RollDice | monopoly/core/MonopolyGame.js:71-76 | both dice are in 1..6 and the total in 2..12 |
| Game.EveryFaceRolls | monopoly/core/MonopolyGame.js:72-73 | every face 1..6 comes up for some random number |
| Game.TileIdInjective | monopoly/core/MonopolyGame.js:43 | an id "list-place" names one position only |
| Game.BoardOfShape | monopoly/core/MonopolyGame.js:40-51 | the board holds one record per template in row-major order: its template, its position, id "list-place", no houses, no hotels, no owner |
| Game.BoardOfIdsUnique | monopoly/core/MonopolyGame.js:40-51 | no two tiles of a built board share an id |
| Game.UkBoard | monopoly/core/MonopolyGame.js:40-51 | the UK board has forty unowned records, GO first, with unique ids |
| Game.TileIndexOf | monopoly/core/MonopolyGame.js:103-110 | the index of the first tile with that id, -1 exactly when no tile has it |
| Game.KindIndexOf | monopoly/core/MonopolyGame.js:116-118 | the index of the first tile of that kind, -1 exactly when there is none |
| Game.PlayerIndexOf | monopoly/core/MonopolyGame.js:120-122 | the index of the first player with that id, -1 exactly when there is none |
| Game.TileIndexOfOwnId | monopoly/core/MonopolyGame.js:103-110 | on a board with unique ids, a tile's id leads back to its own index |
| Game.FirstTileIdIsIndexZero | monopoly/core/MonopolyGame.js:175 | the id seating stores, board[0].id, is index 0 |
| Game.PlayerIndexOfSameIds | monopoly/core/MonopolyGame.js:120-122 | the player lookup depends on the ids only |
| Game.PlayerIndexOfOwnId | monopoly/core/MonopolyGame.js:120-122 | with unique ids, a player's own id finds its own seat |
| Game.GetTilebyId | monopoly/core/MonopolyGame.js:112-114 | some tile exactly when one has that id, and then the first one |
| Game.FindTileByType | monopoly/core/MonopolyGame.js:116-118 | the corrected lookup: some tile exactly when one has the requested kind, and then the first one of that kind |
| Game.FindTileByTypeAsWritten | monopoly/core/MonopolyGame.js:116-118 | as written, the lookup answers the JAIL query whatever kind is asked for |
| Game.FindTileByTypeAsWrittenIgnoresKind | monopoly/core/MonopolyGame.js:116-118 | asked for GO on the UK board, the written lookup yields the jail (square 10) and the corrected one yields GO (square 0) |
| Game.GetTileIndexAsWritten | monopoly/core/MonopolyGame.js:103-110 | as written, getTileIndex always returns -1 |
| Game.GetTileIndexAsWrittenMissesGo | monopoly/core/MonopolyGame.js:103-110 | the written lookup misses GO's own id, which the corrected one finds at 0 |
| Game.OwnedBy | monopoly/core/MonopolyGame.js:126 | exactly the tiles owned by the player |
| Game.OwnedByAppend | monopoly/core/MonopolyGame.js:126 | the filter keeps board order |
| Game.GetPlayerAssets | monopoly/core/MonopolyGame.js:124-129 | exactly the tiles owned by the player, in board order, with the money of the first seated player with that id |
| Game.GetPlayerById | monopoly/core/MonopolyGame.js:120-122 | some seated player exactly when one has that id, and then the first such player, as `filter(...)[0]` |
| Game.AdvanceStaysOnBoard | monopoly/core/MonopolyGame.js:83-89 | from a tile other than the last, the player stays on the board exactly when the sum does; from the last tile, a move of 1 to the board length lands on square pos - 1 |
| Game.AdvanceByForwardDistance | monopoly/core/MonopolyGame.js:83-89 | moving by the forward distance reaches the target exactly when the target lies ahead, or when starting on the last tile; a move that should pass GO overshoots by the board length |
| Game.RefIndexOf | monopoly/core/MonopolyGame.js:103-110 | the corrected lookup on what `onTileId` holds as written: the first tile whose id loosely equals it, -1 exactly when none does |
| Game.GetTilebyRef | monopoly/core/MonopolyGame.js:112-114 | `getTilebyId` on what `onTileId` holds as written: a tile exactly when some tile's id loosely equals it |
| Game.AdvanceRef | monopoly/core/MonopolyGame.js:78-90 | `advancePlayer` as written always stores a bare number in `onTileId` |
| Game.NumericOnTileIdIsLost | monopoly/core/MonopolyGame.js:78-90 | from seating the first move of a reaches square a, the second move of b ends on b - 1 whatever a was, and no tile is then found; on forty tiles, throws of 7 and 5 end on 4 instead of 12 |
| Game.AdvanceByIndexMissesTarget | monopoly/core/MonopolyGame.js:92-94 | advancing by a tile's index reaches that tile only from square 0; from 7, "to" square 30 ends on 37 |
| Game.SeatPlayers | monopoly/core/MonopolyGame.js:53-64 | every seated player has id = seat index, their own player record, money 1500, no jail, no jail turns, roll total 0 and no tile; ids unique |
| Game.BuildBoard | monopoly/core/MonopolyGame.js:40-51 | the constructor's loops build exactly the board of BoardOfShape, with unique ids |
| Game.BoardConfigCheck | monopoly/core/MonopolyGame.js:66-68 | passes exactly when the first tile is GO |
| Game.UkBoardPassesCheck | monopoly/core/BoardData.js:19-22 | the UK board passes the configuration check |
| Game.RunCheck | monopoly/core/MonopolyGame.js:184-186 | run starts exactly when the game is READY, else InvalidGameStateError |
| Game.JailStepFacts | monopoly/core/MonopolyGame.js:208-217 | a jailed player's counter rises by exactly one and 50 is charged once it reaches 3; nothing else changes, and a free player is untouched |
| Game.JailTurnsFromZero | monopoly/core/MonopolyGame.js:208-217 | after n turns in jail the counter rose by n and 50 was paid for each turn from the third on; the player is never released |
| Game.RollsUsed | monopoly/core/MonopolyGame.js:247-276 | the dice loop takes at least one throw and no more than are supplied |
| Game.DiceInJail | monopoly/core/MonopolyGame.js:249-271 | a jailed player throws once and moves by the throw exactly when it is a double |
| Game.DiceWhileDoubles | monopoly/core/MonopolyGame.js:249-271 | a free player throws again exactly after a double: every throw but the last is a double, the last is not |
| Game.InsertAt | monopoly/core/MonopolyGame.js:178 | one insertion step keeps a permutation and extends the sorted prefix by one |
| Game.SortByRoll | monopoly/core/MonopolyGame.js:178 | the sort gives a permutation in non-increasing order of dice totals |
| Game.TotalMoneyCredit | monopoly/core/CardData.js:170-174 | paying an amount to every player but one raises the total by that amount per such player |
| Game.MonopolyGame.Init | monopoly/core/MonopolyGame.js:34-38 | a new game has the given board and players, no current player, state INIT and no calls |
| Game.MonopolyGame.Create | monopoly/core/MonopolyGame.js:34-69 | fails with InvalidBoardConfigError exactly when the first template is not GO; otherwise a valid game with the built board and the players seated in order |
| Game.MonopolyGame.GetTileIndex | monopoly/core/MonopolyGame.js:103-110 | the corrected getTileIndex: the index of the tile with that id, -1 exactly when there is none |
| Game.MonopolyGame.AdvancePlayer | monopoly/core/MonopolyGame.js:78-90 | only that player's position changes, to the index advancePlayer computes from the stored index (the corrected reading of `onTileId`); a valid game stays valid |
| Game.MonopolyGame.AdvancePlayerToTile | monopoly/core/MonopolyGame.js:92-94 | the corrected move: only that player's position changes, to the tile's index; a valid game stays valid |
| Game.MonopolyGame.AdvancePlayerToTileAsWritten | monopoly/core/MonopolyGame.js:92-94 | as written: the player advances BY the tile's index; a valid game stays valid |
| Game.MonopolyGame.GoToJail | monopoly/core/MonopolyGame.js:96-101 | only that player changes: jailed, counter 0, on the first GO_TO_JAIL tile |
| Game.MonopolyGame.DeterminePlayerOrder | monopoly/core/MonopolyGame.js:170-181 | the players are a permutation of the originals with their rolls, sorted by non-increasing total; each total is in 2..12 and each player is on board[0]; current player 0, state READY |
| Game.MonopolyGame.JailTurn | monopoly/core/MonopolyGame.js:208-230 | only the current player changes, by one jail step; a valid game stays valid |
| Game.MonopolyGame.DiceLoop | monopoly/core/MonopolyGame.js:247-276 | the loop takes RollsUsed throws; the double counter is the number of doubles thrown; only the current player's position changes, to where the throws take it |
| Game.MonopolyGame.PayRent | monopoly/core/CardData.js:18-20 | the rent call is recorded and nothing else changes |
| Game.MonopolyGame.PassGo | monopoly/core/CardData.js:45 | the passGo call is recorded and nothing else changes |
| CardData.CreditOnlyMoney | monopoly/core/CardData.js:96-98 | crediting one player changes only that player's money, and the total by the same amount |
| CardData.CollectMoney | monopoly/core/CardData.js:93-98 | a fixed-amount card changes only the drawer's money, by exactly the printed amount |
| CardData.RepairCostNonNegative | monopoly/core/CardData.js:129-140 | with non-negative prices and building counts the repair charge is at least 0 |
| CardData.RepairCostNoBuildings | monopoly/core/CardData.js:129-140 | the charge is 0 when the drawer's tiles carry no buildings |
| CardData.RepairCostAppend | monopoly/core/CardData.js:136 | the charge is the sum of the per-tile charges |
| CardData.FreshBoardNoRepairs | monopoly/core/CardData.js:135-138 | on a newly built board nobody owns a tile, so a repair card charges 0 |
| CardData.ChargeRepairs | monopoly/core/CardData.js:129-140 | house repairs (and street repairs, lines 318-329) charge the drawer exactly the sum over their tiles of houses times the house price plus hotels times the hotel price; nothing else changes |
| CardData.OthersDebitCounts | monopoly/core/CardData.js:170-174 | the drawer pays the amount once per other player |
| CardData.PaidEachOtherOnlyMoney | monopoly/core/CardData.js:165-176 | paying each other player changes nothing but money |
| CardData.PaidEachOtherConserves | monopoly/core/CardData.js:165-176 | paying each other player leaves the total money unchanged |
| CardData.PayEachOther | monopoly/core/CardData.js:165-176 | chairman (and opera night and birthday, lines 246-257 and 274-285): every other player gains the amount, the drawer loses it once per other player, the total is unchanged |
| CardData.PayOthers | monopoly/core/CardData.js:170-174 | the forEach transfer loop gives every other player the amount and debits the drawer the running sum |
| CardData.GrantJailCard | monopoly/core/CardData.js:100-107 | only the drawer changes: it now holds a get-out-of-jail card |
| CardData.AdvanceToGo | monopoly/core/CardData.js:41-46 | the drawer moves to GO (square 0) and passGo is called exactly once |
| CardData.AdvanceToAndPassGo | monopoly/core/CardData.js:11-21 | the drawer advances by the host's distance to the tile with that code; rent is recorded exactly when due; passGo is not called |
| CardData.KindIndices | monopoly/core/CardData.js:24 | exactly the squares of that kind, in increasing order |
| CardData.ReduceClosestIsLeast | monopoly/core/CardData.js:25-27 | the reduce picks a tile of least distance, and earlier tiles are strictly farther |
| CardData.ClosestIsNearest | monopoly/core/CardData.js:23-27 | the tile picked is of the requested kind, at least distance, and the earliest such tile on ties |
| CardData.AdvanceToClosestTileType | monopoly/core/CardData.js:23-34 | the drawer moves to the nearest tile of that kind; rent with the multiplier is recorded exactly when due |
| CardData.GoBackThreeSpaces | monopoly/core/CardData.js:108-120 | the drawer moves by -3 as advancePlayer computes it; rent is recorded exactly when due |
| CardData.ApplyEffect | monopoly/core/CardData.js:36-330 | every effect keeps the board and the ids; total money changes only by the bank's payment or charge; the empty effect changes nothing; go-to-jail jails the drawer with counter 0 |
| CardData.UkChanceEffectsListed | monopoly/core/CardData.js:36-193 | the effects of the seventeen chance cards, in deck order |
| CardData.UkCommChestEffectsListed | monopoly/core/CardData.js:195-330 | the effects of the fifteen community-chest cards, in deck order |
| CardData.CardOfEntry | monopoly/core/MonopolyCard.js:20-26 | a deck entry becomes a card of the deck's type, not keepable, with the entry's code and effect |
| CardData.UkDecks | monopoly/core/CardData.js:36-330 | seventeen chance and fifteen community-chest cards, each of its deck's type, not keepable, with its listed effect |
| CardData.UkTargetCodesOnBoard | monopoly/core/CardData.js:48-163 | every code a chance card jumps to is on the UK board |
| CardData.UkTargetKindsOnBoard | monopoly/core/CardData.js:64-128 | the UK board has a utility, a railroad and a GO_TO_JAIL tile (square 30) |
| CardData.UkCardEffectsRun | monopoly/core/CardData.js:36-330 | every card of both UK decks can run on the UK board |
| CardData.UkUtilityRailroadSquares | monopoly/core/BoardData.js:145-351 | the UK board's utilities are exactly squares 12 and 28, its railroads exactly 5, 15, 25, 35 |
| CardData.UkNearestUtility | monopoly/core/CardData.js:64-73 | drawn on chance squares 7, 22 and 36 the nearest utility is 12, 28 and 12 |
| CardData.UkNearestRailroad | monopoly/core/CardData.js:74-91 | drawn on chance squares 7, 22 and 36 the nearest railroad is 15, 25 and 5 |
| CardData.UkAdvanceToTrafalgar | monopoly/core/CardData.js:48-55 | red_03 is square 24; from 7 the drawer lands on 24, from 36 on 64, off the board |
| NonsensicalAI.PhaseName | monopoly/ai/NonsensicalAI.js:66-68 | the phase's name, never empty, for the error message |
| NonsensicalAI.ConsiderPreRoll | monopoly/ai/NonsensicalAI.js:16-21 | exactly one decision, NEXT_PHASE |
| NonsensicalAI.ConsiderRoll | monopoly/ai/NonsensicalAI.js:23-28 | exactly one decision, ROLL |
| NonsensicalAI.ConsiderBuy | monopoly/ai/NonsensicalAI.js:30-43 | one decision: BUY of the player's own tile exactly when BUY is offered, NEXT_PHASE otherwise |
| NonsensicalAI.ConsiderPostRoll | monopoly/ai/NonsensicalAI.js:45-50 | exactly one decision, NEXT_PHASE |
| NonsensicalAI.ConsiderAction | monopoly/ai/NonsensicalAI.js:52-71 | answers exactly PRE_ROLL, ROLL, BUY and POST_ROLL, always with one decision; any other phase gives NonsensicalAIError with the phase's name; BUY exactly in the buy phase when offered, for the player's tile; ROLL exactly in the roll phase |
| NonsensicalAI.OfferedMattersOnlyToBuy | monopoly/ai/NonsensicalAI.js:52-71 | outside the buy phase the offered actions do not change the answer |

## Left out

- The `yield` coroutine of `run`, its event messages, its loop over turns, and the human and AI input hooks are not modelled. Only the READY check, the jail step and the dice loop are kept.
- `Math.random` is not modelled. `rollDice` takes its two random numbers as parameters, and `determinePlayerOrder` and the dice loop take their throws as a sequence.
- The three-doubles branch of the dice loop is empty in the source, so three doubles change nothing here either.
- `handleJailTimeInput`, the commented-out trade generator and the commented-out pre-roll AI hook are empty or commented out, so there is nothing to model.
- `monopoly/ai/PlayerAI.js` is not part of this model. It only delegates, and it references names it never imports.
- `console.log` in `considerAction` is not modelled, and neither is the game argument of the `consider*` functions, which they never read.
- `calcTileDistance`, `getTileByCode`, `isRentDue`, `payRent` and `passGo` are not defined in the source, so they are not modelled beyond the `Host` contracts and the recorded calls. Rent amounts, mortgaging, building, auctions and trading exist only as enum names and are not modelled.
- The utility card's printed "ten times the amount thrown" is not modelled: the model follows the code, which passes multiplier 2.
- Game.MonopolyGame.AdvancePlayer: does not require the move to stay on the board, just as the source does not. `Game.AdvanceStaysOnBoard` gives the conditions under which it does.
- CardData.AdvanceToAndPassGo: states the move in terms of the host's distance and assumes nothing about it. Only `CardData.UkAdvanceToTrafalgar` assumes forward distances.
- Game.SortByRoll: its stability is not stated. It promises a permutation in non-increasing order, not JavaScript's stable order among equal totals.
- Aliasing between the card's `player` argument and the game's player record is not modelled. Effects take the player's id and update the game's list.

## Findings

| source | as written | input that shows it | evidently intended | confidence | as-written member | corrected member |
|---|---|---|---|---|---|---|
| monopoly/core/BoardTile.js:40-48 | the constructor destructures seven fields and drops `code` and `houseCost` | the table rows with codes commchest_01 and commchest_02 give equal tiles, so no card can find a tile by code | store every field passed, as every row of the board table supplies them | high (not executed) | BoardTiles.AsWrittenLosesCode | BoardTiles.NewBoardTileRoundTrip |
| monopoly/core/MonopolyGame.js:103-110 | `return tileIndex` leaves only the forEach callback, so the result is always -1 | the id of GO on the UK board gives -1 | the index of the tile with that id, -1 when there is none | high (not executed) | Game.GetTileIndexAsWrittenMissesGo | Game.MonopolyGame.GetTileIndex |
| monopoly/core/MonopolyGame.js:116-118 | the filter tests for JAIL whatever type is asked for | asking the UK board for GO yields the jail tile, square 10 | the first tile of the requested type | high (not executed) | Game.FindTileByTypeAsWrittenIgnoresKind | Game.FindTileByType |
| monopoly/core/MonopolyGame.js:78-90 | `advancePlayer` stores a bare number in `onTileId`, which every lookup compares with string ids "list-place" | a player seated on GO who throws 7 and then 5: the second move starts from -1 and ends on square 4 instead of 12, and `getTileById(onTileId)` is then `undefined` | keep the player's position, so each move starts from the square the player stands on | high (not executed) | Game.NumericOnTileIdIsLost | Game.MonopolyGame.AdvancePlayer |
| monopoly/core/MonopolyGame.js:92-94 | `advancePlayerToTile` advances the player BY the target's index | a player on square 7 sent "to" square 30 ends on 37 | move the player onto the target tile | high (not executed) | Game.AdvanceByIndexMissesTarget | Game.MonopolyGame.AdvancePlayerToTile |
