/**
 * The game engine (monopoly/core/MonopolyGame.js): the board of tile records,
 * the seated players, and the operations that build the game, look tiles and
 * players up, move players, jail them, seat them in dice order and take the
 * jail and dice decisions of a turn.
 *
 * A player's `onTileId` is modelled as a board index, -1 while the player has
 * not been seated (`null`). This is a correction: seating stores the id of
 * board[0], whose index is 0 (FirstTileIdIsIndexZero), but `advancePlayer`
 * stores a bare number, which no later lookup by id finds
 * (NumericOnTileIdIsLost models that as written).
 */
module Game {
  import opened Wrappers
  import opened BoardTiles
  import opened BoardData
  import opened Players

  datatype GameState = INIT | READY | RUNNING | OVER

  /** The errors the engine throws on purpose. */
  datatype GameError =
    | InvalidBoardConfigError(message: string)
    | InvalidGameStateError(message: string)

  const MAX_DOUBLE_ROLLS: int := 3
  const MAX_JAIL_TURNS: int := 3
  /** Every player sits down with this much money. */
  const STARTING_MONEY: int := 1500
  /** What a player pays on each turn in jail from the MAX_JAIL_TURNS-th on. */
  const JAIL_FINE: int := 50

  /** Where a tile template sits in the board table: row `list`, column `place`. */
  datatype Position = Position(list: nat, place: nat)

  /** A board record: a tile template with its id, position, buildings and owner. */
  datatype Tile = Tile(
    id: string,
    pos: Position,
    info: BoardTile,
    houses: int,
    hotels: int,
    ownedPlayerId: Option<int>)

  /** One throw of the two dice. */
  datatype Roll = Roll(die1: int, die2: int)

  predicate ValidRoll(r: Roll) {
    1 <= r.die1 <= 6 && 1 <= r.die2 <= 6
  }

  predicate IsDouble(r: Roll) {
    r.die1 == r.die2
  }

  function Total(r: Roll): int {
    r.die1 + r.die2
  }

  /** `Math.floor(Math.random()*6)+1` for a random number `u` in [0, 1). */
  function RollDie(u: real): (d: int)
    requires 0.0 <= u < 1.0
    ensures 1 <= d <= 6
  {
    (u * 6.0).Floor + 1
  }

  /** `rollDice`, given the two random numbers it draws. */
  function RollDice(u1: real, u2: real): (r: Roll)
    requires 0.0 <= u1 < 1.0 && 0.0 <= u2 < 1.0
    ensures ValidRoll(r) && 2 <= Total(r) <= 12
  {
    Roll(RollDie(u1), RollDie(u2))
  }

  /** Every face of a die comes up for some random number. */
  lemma EveryFaceRolls(d: int)
    requires 1 <= d <= 6
    ensures 0.0 <= (d - 1) as real / 6.0 < 1.0
    ensures RollDie((d - 1) as real / 6.0) == d
  {
  }

  /**
   * A seated player. `onTile` is the board index the player stands on, -1 for
   * `null`: the corrected reading of `onTileId` (see NumericOnTileIdIsLost).
   */
  datatype InGamePlayer = InGamePlayer(
    id: int,
    info: Player,
    hasAi: bool,
    onTile: int,
    rollSequence: int,
    lastRoll: Option<Roll>,
    inJail: bool,
    inJailTurns: int,
    money: int,
    getOutOfJailCard: bool)

  /** Calls the engine makes into members the source does not define (`payRent`, `passGo`). */
  datatype HostCall =
    | PayRent(playerId: int, tileIndex: int, multiplier: Option<int>)
    | PassGo(playerId: int)

  // ---------------------------------------------------------------- tile ids

  function Digit(d: nat): (c: char)
    requires d < 10
    ensures '0' <= c <= '9'
  {
    (48 + d) as char
  }

  /** JavaScript's decimal rendering of a non-negative integer. */
  function NatToString(n: nat): (s: string)
    ensures 1 <= |s|
    ensures |s| == 1 <==> n < 10
    ensures forall i :: 0 <= i < |s| ==> '0' <= s[i] <= '9'
    decreases n
  {
    if n < 10 then [Digit(n)] else NatToString(n / 10) + [Digit(n % 10)]
  }

  /** Different numbers render differently. */
  lemma {:induction false} NatToStringInjective(a: nat, b: nat)
    requires NatToString(a) == NatToString(b)
    ensures a == b
    decreases a
  {
    if a >= 10 && b >= 10 {
      var sa, sb := NatToString(a), NatToString(b);
      assert sa == NatToString(a / 10) + [Digit(a % 10)];
      assert sb == NatToString(b / 10) + [Digit(b % 10)];
      assert sa[..|sa| - 1] == NatToString(a / 10);
      assert sb[..|sb| - 1] == NatToString(b / 10);
      NatToStringInjective(a / 10, b / 10);
      assert Digit(a % 10) == sa[|sa| - 1] == sb[|sb| - 1] == Digit(b % 10);
    }
  }

  /** `listIndex + "-" + tileIndex`. */
  function TileId(list: nat, place: nat): string {
    NatToString(list) + "-" + NatToString(place)
  }

  /** A tile id names one position only: the '-' is the first non-digit. */
  lemma TileIdInjective(l1: nat, p1: nat, l2: nat, p2: nat)
    requires TileId(l1, p1) == TileId(l2, p2)
    ensures l1 == l2 && p1 == p2
  {
    var a1, b1, a2, b2 := NatToString(l1), NatToString(p1), NatToString(l2), NatToString(p2);
    var s := TileId(l1, p1);
    assert s == a1 + "-" + b1 && s == a2 + "-" + b2;
    assert s[|a1|] == '-' && s[|a2|] == '-';
    assert |a1| == |a2|;
    assert a1 == s[..|a1|] == a2;
    assert b1 == s[|a1| + 1..] == b2;
    NatToStringInjective(l1, l2);
    NatToStringInjective(p1, p2);
  }

  // ------------------------------------------------------- building the board

  /** The records of one row of templates: id "list-place", no buildings, no owner. */
  function RowTiles(row: seq<BoardTile>, list: nat): (ts: seq<Tile>)
    ensures |ts| == |row|
  {
    seq(|row|, s requires 0 <= s < |row| => Tile(TileId(list, s), Position(list, s), row[s], 0, 0, None))
  }

  /** The board the constructor pushes, row by row, from the table of templates. */
  function BoardOf(tileData: seq<seq<BoardTile>>): seq<Tile>
    decreases |tileData|
  {
    if |tileData| == 0 then []
    else BoardOf(tileData[..|tileData| - 1]) + RowTiles(tileData[|tileData| - 1], |tileData| - 1)
  }

  /** A tile nobody has built on or bought. */
  predicate Unowned(t: Tile) {
    t.houses == 0 && t.hotels == 0 && t.ownedPlayerId.None?
  }

  lemma {:induction false} FlattenSnoc(rows: seq<seq<BoardTile>>, row: seq<BoardTile>)
    ensures Flatten(rows + [row]) == Flatten(rows) + row
    decreases |rows|
  {
    if |rows| == 0 {
      assert rows + [row] == [row];
      assert Flatten([row]) == row + Flatten([]);
    } else {
      assert (rows + [row])[1..] == rows[1..] + [row];
      FlattenSnoc(rows[1..], row);
    }
  }

  /**
   * The board holds one record per template in row-major order: its template,
   * its position in the table, the id "list-place", no buildings and no owner.
   */
  lemma {:induction false} BoardOfShape(tileData: seq<seq<BoardTile>>)
    ensures |BoardOf(tileData)| == |Flatten(tileData)|
    ensures forall i :: 0 <= i < |BoardOf(tileData)| ==> BoardOf(tileData)[i].info == Flatten(tileData)[i]
    ensures forall i :: 0 <= i < |BoardOf(tileData)| ==> Unowned(BoardOf(tileData)[i])
    ensures forall i :: 0 <= i < |BoardOf(tileData)| ==>
              var t := BoardOf(tileData)[i];
              t.pos.list < |tileData| && t.pos.place < |tileData[t.pos.list]|
              && tileData[t.pos.list][t.pos.place] == t.info && t.id == TileId(t.pos.list, t.pos.place)
    decreases |tileData|
  {
    if |tileData| > 0 {
      var init, last := tileData[..|tileData| - 1], tileData[|tileData| - 1];
      BoardOfShape(init);
      assert tileData == init + [last];
      FlattenSnoc(init, last);
      var b := BoardOf(tileData);
      assert b == BoardOf(init) + RowTiles(last, |init|);
      forall i | 0 <= i < |b|
        ensures b[i].info == Flatten(tileData)[i]
        ensures var t := b[i];
                t.pos.list < |tileData| && t.pos.place < |tileData[t.pos.list]|
                && tileData[t.pos.list][t.pos.place] == t.info
      {
        if i < |BoardOf(init)| {
          assert b[i] == BoardOf(init)[i];
          assert init[b[i].pos.list] == tileData[b[i].pos.list];
        }
      }
    }
  }

  /** No two records of a built board share a position. */
  lemma {:induction false} BoardOfPositionsDistinct(tileData: seq<seq<BoardTile>>)
    ensures forall i, j :: 0 <= i < j < |BoardOf(tileData)| ==> BoardOf(tileData)[i].pos != BoardOf(tileData)[j].pos
    decreases |tileData|
  {
    if |tileData| > 0 {
      var init, last := tileData[..|tileData| - 1], tileData[|tileData| - 1];
      BoardOfPositionsDistinct(init);
      BoardOfShape(init);
      var b := BoardOf(tileData);
      assert b == BoardOf(init) + RowTiles(last, |init|);
      forall i, j | 0 <= i < j < |b|
        ensures b[i].pos != b[j].pos
      {
        if j < |BoardOf(init)| {
          assert b[i] == BoardOf(init)[i] && b[j] == BoardOf(init)[j];
        } else if i < |BoardOf(init)| {
          assert b[i] == BoardOf(init)[i];
          assert b[j].pos.list == |init|;
        }
      }
    }
  }

  /** No two tiles of the board share an id. */
  predicate TileIdsUnique(board: seq<Tile>) {
    forall i, j :: 0 <= i < j < |board| ==> board[i].id != board[j].id
  }

  /** The ids the constructor gives are unique. */
  lemma BoardOfIdsUnique(tileData: seq<seq<BoardTile>>)
    ensures TileIdsUnique(BoardOf(tileData))
  {
    BoardOfShape(tileData);
    BoardOfPositionsDistinct(tileData);
    var b := BoardOf(tileData);
    forall i, j | 0 <= i < j < |b|
      ensures b[i].id != b[j].id
    {
      if b[i].id == b[j].id {
        TileIdInjective(b[i].pos.list, b[i].pos.place, b[j].pos.list, b[j].pos.place);
      }
    }
  }

  /** The UK board: forty records, GO first, every tile unowned and no id repeated. */
  lemma UkBoard()
    ensures |BoardOf(UkTileData())| == 40
    ensures BoardOf(UkTileData())[0].info.tileType == Some(GO)
    ensures forall i :: 0 <= i < 40 ==> BoardOf(UkTileData())[i].info == UkTiles()[i]
    ensures forall i :: 0 <= i < 40 ==> Unowned(BoardOf(UkTileData())[i])
    ensures TileIdsUnique(BoardOf(UkTileData()))
  {
    BoardOfShape(UkTileData());
    BoardOfIdsUnique(UkTileData());
    UkKinds();
    assert Kinds(UkTiles())[0] == UkTiles()[0].tileType;
  }

  // ----------------------------------------------------------------- lookups

  /** The first index whose element satisfies `p`, or -1 when none does: `filter(p)[0]`. */
  function FirstIndex<T>(s: seq<T>, p: T -> bool): (k: int)
    ensures -1 <= k < |s|
    ensures k >= 0 ==> p(s[k]) && forall j :: 0 <= j < k ==> !p(s[j])
    ensures k == -1 <==> forall j :: 0 <= j < |s| ==> !p(s[j])
    decreases |s|
  {
    if |s| == 0 then -1
    else if p(s[0]) then 0
    else
      var k := FirstIndex(s[1..], p);
      if k == -1 then -1 else k + 1
  }

  /** The index of the tile with id `tileId`, -1 when there is none. */
  function TileIndexOf(board: seq<Tile>, tileId: string): (k: int)
    ensures -1 <= k < |board|
    ensures k >= 0 ==> board[k].id == tileId && forall j :: 0 <= j < k ==> board[j].id != tileId
    ensures k == -1 <==> forall j :: 0 <= j < |board| ==> board[j].id != tileId
  {
    FirstIndex(board, (t: Tile) => t.id == tileId)
  }

  /** The index of the first tile of kind `tileType`, -1 when there is none. */
  function KindIndexOf(board: seq<Tile>, tileType: BoardTileType): (k: int)
    ensures -1 <= k < |board|
    ensures k >= 0 ==> board[k].info.tileType == Some(tileType)
                       && forall j :: 0 <= j < k ==> board[j].info.tileType != Some(tileType)
    ensures k == -1 <==> forall j :: 0 <= j < |board| ==> board[j].info.tileType != Some(tileType)
  {
    FirstIndex(board, (t: Tile) => t.info.tileType == Some(tileType))
  }

  /** The index of the first player with id `playerId`, -1 when there is none. */
  function PlayerIndexOf(ps: seq<InGamePlayer>, playerId: int): (k: int)
    ensures -1 <= k < |ps|
    ensures k >= 0 ==> ps[k].id == playerId && forall j :: 0 <= j < k ==> ps[j].id != playerId
    ensures k == -1 <==> forall j :: 0 <= j < |ps| ==> ps[j].id != playerId
  {
    FirstIndex(ps, (p: InGamePlayer) => p.id == playerId)
  }

  /** On a board without repeated ids, each tile's id leads back to its own index. */
  lemma TileIndexOfOwnId(board: seq<Tile>, k: int)
    requires TileIdsUnique(board) && 0 <= k < |board|
    ensures TileIndexOf(board, board[k].id) == k
  {
  }

  /** Seating stores board[0].id; as an index that is 0. */
  lemma FirstTileIdIsIndexZero(board: seq<Tile>)
    requires |board| > 0
    ensures TileIndexOf(board, board[0].id) == 0
  {
  }

  /** A lookup by id sees only the ids: changing other fields leaves it where it was. */
  lemma PlayerIndexOfSameIds(a: seq<InGamePlayer>, b: seq<InGamePlayer>, playerId: int)
    requires |a| == |b| && forall j :: 0 <= j < |a| ==> a[j].id == b[j].id
    ensures PlayerIndexOf(a, playerId) == PlayerIndexOf(b, playerId)
  {
  }

  /** No two players share an id. */
  predicate PlayerIdsUnique(ps: seq<InGamePlayer>) {
    forall i, j :: 0 <= i < j < |ps| ==> ps[i].id != ps[j].id
  }

  /** With unique ids, looking a player up by its own id finds its own seat. */
  lemma PlayerIndexOfOwnId(ps: seq<InGamePlayer>, k: int)
    requires PlayerIdsUnique(ps) && 0 <= k < |ps|
    ensures PlayerIndexOf(ps, ps[k].id) == k
  {
  }

  /** `getTilebyId`: the tile with that id, `undefined` (None) when there is none. */
  function GetTilebyId(board: seq<Tile>, tileId: string): (t: Option<Tile>)
    ensures t.Some? <==> exists i :: 0 <= i < |board| && board[i].id == tileId
    ensures t.Some? ==> t.value.id == tileId && t.value == board[TileIndexOf(board, tileId)]
  {
    var k := TileIndexOf(board, tileId);
    if k >= 0 then Some(board[k]) else None
  }

  /** `findTileByType`, as its name and parameter promise: the first tile of the requested kind. */
  function FindTileByType(board: seq<Tile>, tileType: BoardTileType): (t: Option<Tile>)
    ensures t.Some? <==> exists i :: 0 <= i < |board| && board[i].info.tileType == Some(tileType)
    ensures t.Some? ==> t.value.info.tileType == Some(tileType) && t.value == board[KindIndexOf(board, tileType)]
  {
    var k := KindIndexOf(board, tileType);
    if k >= 0 then Some(board[k]) else None
  }

  /** `findTileByType` as written: the filter tests for JAIL whatever kind is asked for. */
  function FindTileByTypeAsWritten(board: seq<Tile>, tileType: BoardTileType): (t: Option<Tile>)
    ensures t == FindTileByType(board, JAIL)
  {
    var k := KindIndexOf(board, JAIL);
    if k >= 0 then Some(board[k]) else None
  }

  /** On the UK board, asking the written lookup for GO yields the jail tile, square 10. */
  lemma FindTileByTypeAsWrittenIgnoresKind()
    ensures FindTileByTypeAsWritten(BoardOf(UkTileData()), GO) == Some(BoardOf(UkTileData())[10])
    ensures FindTileByType(BoardOf(UkTileData()), GO) == Some(BoardOf(UkTileData())[0])
  {
    UkBoard();
    UkKinds();
    UkKindIndex(JAIL, 10);
    UkKindIndex(GO, 0);
  }

  /** The first tile of a kind that occurs at exactly one square is the one at that square. */
  lemma KindIndexOfSole(board: seq<Tile>, kinds: seq<Option<BoardTileType>>, kind: BoardTileType, square: int)
    requires |board| == |kinds| && 0 <= square < |kinds|
    requires forall i :: 0 <= i < |board| ==> board[i].info.tileType == kinds[i]
    requires forall i :: 0 <= i < |kinds| ==> (kinds[i] == Some(kind) <==> i == square)
    ensures KindIndexOf(board, kind) == square
  {
    assert board[square].info.tileType == Some(kind);
  }

  /** The kinds of the UK board's records are the kinds of the UK tiles. */
  lemma UkBoardKinds()
    ensures |BoardOf(UkTileData())| == |Kinds(UkTiles())| == 40
    ensures forall i :: 0 <= i < 40 ==> BoardOf(UkTileData())[i].info.tileType == Kinds(UkTiles())[i]
  {
    UkBoard();
  }

  /** On the UK board the first tile of a kind found only at `square` is the one at `square`. */
  lemma UkKindIndex(kind: BoardTileType, square: int)
    requires 0 <= square < 40
    requires forall i :: 0 <= i < 40 ==> (Kinds(UkTiles())[i] == Some(kind) <==> i == square)
    ensures KindIndexOf(BoardOf(UkTileData()), kind) == square
  {
    UkBoardKinds();
    KindIndexOfSole(BoardOf(UkTileData()), Kinds(UkTiles()), kind, square);
  }

  /** `getTileIndex` as written: the `return` leaves only the forEach callback, so the result is always -1. */
  function GetTileIndexAsWritten(board: seq<Tile>, tileId: string): (k: int)
    ensures k == -1
  {
    -1
  }

  /** The written lookup misses even GO, the first tile of the UK board, which the intended one finds at 0. */
  lemma GetTileIndexAsWrittenMissesGo()
    ensures |BoardOf(UkTileData())| == 40
    ensures GetTileIndexAsWritten(BoardOf(UkTileData()), BoardOf(UkTileData())[0].id) == -1
    ensures TileIndexOf(BoardOf(UkTileData()), BoardOf(UkTileData())[0].id) == 0
  {
    UkBoard();
  }

  /** The tiles owned by `playerId`, in board order: `board.filter(t => t.ownedPlayerId == playerId)`. */
  function OwnedBy(board: seq<Tile>, playerId: int): (ts: seq<Tile>)
    ensures |ts| <= |board|
    ensures forall t :: t in ts <==> t in board && t.ownedPlayerId == Some(playerId)
    decreases |board|
  {
    if |board| == 0 then []
    else if board[0].ownedPlayerId == Some(playerId) then [board[0]] + OwnedBy(board[1..], playerId)
    else OwnedBy(board[1..], playerId)
  }

  /** The filter keeps board order: it distributes over the halves of a board. */
  lemma {:induction false} OwnedByAppend(a: seq<Tile>, b: seq<Tile>, playerId: int)
    ensures OwnedBy(a + b, playerId) == OwnedBy(a, playerId) + OwnedBy(b, playerId)
    decreases |a|
  {
    if |a| > 0 {
      assert (a + b)[1..] == a[1..] + b;
      OwnedByAppend(a[1..], b, playerId);
    } else {
      assert a + b == b;
    }
  }

  /** What `getPlayerAssets` returns. */
  datatype Assets = Assets(properties: seq<Tile>, money: int)

  /** `getPlayerAssets`: the player's tiles in board order and the player's money. */
  function GetPlayerAssets(board: seq<Tile>, ps: seq<InGamePlayer>, playerId: int): (a: Assets)
    requires PlayerIndexOf(ps, playerId) >= 0
    ensures a.properties == OwnedBy(board, playerId)
    ensures forall t :: t in a.properties <==> t in board && t.ownedPlayerId == Some(playerId)
    ensures a.money == ps[PlayerIndexOf(ps, playerId)].money
  {
    Assets(OwnedBy(board, playerId), ps[PlayerIndexOf(ps, playerId)].money)
  }

  /** `getPlayerById`: the first player with that id, `undefined` (None) when there is none. */
  function GetPlayerById(ps: seq<InGamePlayer>, playerId: int): (p: Option<InGamePlayer>)
    ensures p.Some? <==> exists k :: 0 <= k < |ps| && ps[k].id == playerId
    ensures p.Some? ==> p.value.id == playerId && p.value in ps
    ensures p.Some? ==> p.value == ps[PlayerIndexOf(ps, playerId)]
    ensures p.Some? ==> forall j :: 0 <= j < PlayerIndexOf(ps, playerId) ==> ps[j].id != playerId
  {
    var k := PlayerIndexOf(ps, playerId);
    if k >= 0 then Some(ps[k]) else None
  }

  // ---------------------------------------------------------------- movement

  /**
   * The index `advancePlayer` computes for a player at `tileIndex` who moves
   * `pos` squares on a board of `boardLength` tiles. The board length is
   * subtracted only when the player starts on the last tile.
   */
  function AdvanceIndex(tileIndex: int, pos: int, boardLength: int): int {
    if tileIndex < boardLength - 1 then tileIndex + pos else tileIndex + pos - boardLength
  }

  /**
   * When the move stays on the board: from any tile but the last, when the sum
   * does; from the last tile, for any move of 1 to the board length, which
   * lands on square pos - 1.
   */
  lemma AdvanceStaysOnBoard(tileIndex: int, pos: int, boardLength: int)
    requires 0 <= tileIndex < boardLength
    ensures tileIndex < boardLength - 1 ==>
              (0 <= AdvanceIndex(tileIndex, pos, boardLength) < boardLength <==> -tileIndex <= pos < boardLength - tileIndex)
    ensures tileIndex == boardLength - 1 && 1 <= pos <= boardLength ==>
              AdvanceIndex(tileIndex, pos, boardLength) == pos - 1
  {
  }

  /**
   * Moving by the forward distance to a target lands on it only when the
   * target lies ahead, or when the player starts on the last tile; a move that
   * should pass GO overshoots the board by its length.
   */
  lemma AdvanceByForwardDistance(tileIndex: int, target: int, boardLength: int)
    requires 0 <= tileIndex < boardLength && 0 <= target < boardLength
    ensures var landed := AdvanceIndex(tileIndex, (target - tileIndex) % boardLength, boardLength);
            (landed == target <==> (tileIndex < boardLength - 1 && tileIndex <= target)
                                   || (tileIndex == boardLength - 1 && target < boardLength - 1))
            && (tileIndex < boardLength - 1 && target < tileIndex ==> landed == target + boardLength)
  {
    var d := (target - tileIndex) % boardLength;
    if target >= tileIndex {
      assert d == target - tileIndex;
    } else {
      assert d == target - tileIndex + boardLength;
    }
  }

  /**
   * `advancePlayerToTile` as written moves the player BY the target's index:
   * it reaches the target only from GO (square 0). From square 7, a move
   * "to" the GO_TO_JAIL corner (30) ends on 37 instead.
   */
  lemma AdvanceByIndexMissesTarget(tileIndex: int, target: int, boardLength: int)
    requires boardLength > 1 && 0 <= tileIndex < boardLength
    ensures AdvanceIndex(tileIndex, target, boardLength) == target <==> tileIndex == 0
    ensures AdvanceIndex(7, 30, 40) == 37
  {
  }

  /**
   * What `onTileId` holds as written: the id string seating stores, the bare
   * number `advancePlayer` stores, or `null`.
   */
  datatype TileRef = IdRef(tileId: string) | NumberRef(n: int) | NullRef

  /**
   * `t.id == tileId` under JavaScript's `==` for the board's ids "list-place":
   * such a string has a digit before its '-', so it converts to NaN and equals
   * no number, and no string equals `null`.
   */
  predicate LooseIdEquals(id: string, ref: TileRef) {
    ref.IdRef? && ref.tileId == id
  }

  /** The corrected `getTileIndex` applied to what `onTileId` holds as written. */
  function RefIndexOf(board: seq<Tile>, ref: TileRef): (k: int)
    ensures -1 <= k < |board|
    ensures k >= 0 ==> LooseIdEquals(board[k].id, ref)
    ensures k == -1 <==> forall j :: 0 <= j < |board| ==> !LooseIdEquals(board[j].id, ref)
  {
    FirstIndex(board, (t: Tile) => LooseIdEquals(t.id, ref))
  }

  /** `getTilebyId` applied to what `onTileId` holds as written; None is `undefined`. */
  function GetTilebyRef(board: seq<Tile>, ref: TileRef): (t: Option<Tile>)
    ensures t.Some? <==> exists j :: 0 <= j < |board| && LooseIdEquals(board[j].id, ref)
  {
    var k := RefIndexOf(board, ref);
    if k >= 0 then Some(board[k]) else None
  }

  /** `advancePlayer` as written, with the corrected `getTileIndex`: it stores the bare number it computes. */
  function AdvanceRef(board: seq<Tile>, ref: TileRef, pos: int): (r: TileRef)
    ensures r.NumberRef?
  {
    NumberRef(AdvanceIndex(RefIndexOf(board, ref), pos, |board|))
  }

  /**
   * The number `advancePlayer` stores is lost to every later lookup. From
   * seating (board[0]'s id) the first move of `a` reaches square a, but the
   * second move of `b` starts from -1 and ends on b - 1 whatever the first
   * move was, and `getTilebyId` then finds no tile. On a forty-tile board,
   * throws of 7 and 5 end on square 4 instead of 12.
   */
  lemma NumericOnTileIdIsLost(board: seq<Tile>, a: int, b: int)
    requires |board| > 1
    ensures AdvanceRef(board, IdRef(board[0].id), a) == NumberRef(a)
    ensures AdvanceRef(board, AdvanceRef(board, IdRef(board[0].id), a), b) == NumberRef(b - 1)
    ensures GetTilebyRef(board, AdvanceRef(board, IdRef(board[0].id), a)) == None
    ensures |board| == 40 ==>
              AdvanceRef(board, AdvanceRef(board, IdRef(board[0].id), 7), 5) == NumberRef(4)
              && AdvanceIndex(AdvanceIndex(0, 7, 40), 5, 40) == 12
  {
    assert RefIndexOf(board, IdRef(board[0].id)) == 0 by {
      assert LooseIdEquals(board[0].id, IdRef(board[0].id));
    }
    assert RefIndexOf(board, NumberRef(a)) == -1;
  }

  // ---------------------------------------------------------------- seating

  /** The record `players.forEach` pushes for the player in seat `seat`. */
  function NewInGamePlayer(player: Player, seat: nat): InGamePlayer {
    InGamePlayer(seat, player, player.playerType == AI, -1, 0, None, false, 0, STARTING_MONEY, false)
  }

  /** Seats the players in the order given (the constructor's second loop). */
  method SeatPlayers(players: seq<Player>) returns (ps: seq<InGamePlayer>)
    ensures |ps| == |players|
    ensures forall i :: 0 <= i < |ps| ==>
              ps[i].id == i && ps[i].info == players[i] && ps[i].hasAi == (players[i].playerType == AI)
    ensures forall i :: 0 <= i < |ps| ==>
              ps[i].money == STARTING_MONEY && !ps[i].inJail && ps[i].inJailTurns == 0
              && ps[i].rollSequence == 0 && ps[i].onTile == -1 && ps[i].lastRoll.None?
              && !ps[i].getOutOfJailCard
    ensures PlayerIdsUnique(ps)
  {
    ps := [];
    var i := 0;
    while i < |players|
      invariant 0 <= i <= |players|
      invariant |ps| == i
      invariant forall j :: 0 <= j < i ==> ps[j] == NewInGamePlayer(players[j], j)
    {
      ps := ps + [NewInGamePlayer(players[i], i)];
      i := i + 1;
    }
  }

  /** Builds the board row by row (the constructor's first loop). */
  method BuildBoard(tileData: seq<seq<BoardTile>>) returns (board: seq<Tile>)
    ensures board == BoardOf(tileData)
    ensures |board| == |Flatten(tileData)|
    ensures forall i :: 0 <= i < |board| ==> board[i].info == Flatten(tileData)[i] && Unowned(board[i])
    ensures TileIdsUnique(board)
  {
    board := [];
    var list := 0;
    while list < |tileData|
      invariant 0 <= list <= |tileData|
      invariant board == BoardOf(tileData[..list])
    {
      var row := tileData[list];
      var place := 0;
      while place < |row|
        invariant 0 <= place <= |row|
        invariant board == BoardOf(tileData[..list]) + RowTiles(row, list)[..place]
      {
        board := board + [Tile(TileId(list, place), Position(list, place), row[place], 0, 0, None)];
        place := place + 1;
      }
      assert tileData[..list + 1][..list] == tileData[..list];
      list := list + 1;
    }
    assert tileData[..|tileData|] == tileData;
    BoardOfShape(tileData);
    BoardOfIdsUnique(tileData);
  }

  /** The configuration check that ends the constructor. */
  function BoardConfigCheck(board: seq<Tile>): (o: Outcome<GameError>)
    requires |board| > 0
    ensures o.Pass? <==> board[0].info.tileType == Some(GO)
  {
    if board[0].info.tileType != Some(GO) then Fail(InvalidBoardConfigError("The first tile is not GO!"))
    else Pass
  }

  /** The UK board passes the configuration check. */
  lemma UkBoardPassesCheck()
    ensures |BoardOf(UkTileData())| > 0
    ensures BoardConfigCheck(BoardOf(UkTileData())) == Pass
  {
    UkBoard();
  }

  /** `run`'s opening check: it refuses to start unless the game is READY. */
  function RunCheck(state: GameState): (o: Outcome<GameError>)
    ensures o.Pass? <==> state == READY
    ensures o.Fail? ==> o.error.InvalidGameStateError?
  {
    if state != READY then Fail(InvalidGameStateError("Game is not ready to be started yet!")) else Pass
  }

  // ------------------------------------------------------------- run's turn

  /** The jail bookkeeping at the start of a turn (the `if (currentPlayer.inJail)` block of `run`). */
  function JailStep(p: InGamePlayer): InGamePlayer {
    if !p.inJail then p
    else if p.inJailTurns + 1 >= MAX_JAIL_TURNS then
      p.(inJailTurns := p.inJailTurns + 1, money := p.money - JAIL_FINE)
    else p.(inJailTurns := p.inJailTurns + 1)
  }

  /** `turns` consecutive turns of jail bookkeeping. */
  function JailTurns(p: InGamePlayer, turns: nat): InGamePlayer
    decreases turns
  {
    if turns == 0 then p else JailTurns(JailStep(p), turns - 1)
  }

  /**
   * A jailed player's counter rises by exactly one per turn, and the fine of 50
   * is charged on every turn from the third on; a free player is untouched.
   * Nothing in the step releases the player.
   */
  lemma JailStepFacts(p: InGamePlayer)
    ensures !p.inJail ==> JailStep(p) == p
    ensures p.inJail ==> JailStep(p).inJail && JailStep(p).inJailTurns == p.inJailTurns + 1
    ensures p.inJail ==> JailStep(p).money == if p.inJailTurns + 1 >= MAX_JAIL_TURNS then p.money - 50 else p.money
    ensures JailStep(p).(inJailTurns := p.inJailTurns, money := p.money) == p
  {
  }

  /**
   * A player sent to jail (counter 0) and kept there for `turns` turns has
   * counted `turns` and paid 50 for each turn after the second.
   */
  lemma {:induction false} JailTurnsFromZero(p: InGamePlayer, turns: nat)
    requires p.inJail
    ensures JailTurns(p, turns).inJail
    ensures JailTurns(p, turns).inJailTurns == p.inJailTurns + turns
    ensures p.inJailTurns >= 0 ==>
              JailTurns(p, turns).money == p.money - JAIL_FINE * (Fined(p.inJailTurns + turns) - Fined(p.inJailTurns))
    ensures JailTurns(p, turns).(inJailTurns := p.inJailTurns, money := p.money) == p
    decreases turns
  {
    if turns > 0 {
      JailTurnsFromZero(JailStep(p), turns - 1);
    }
  }

  /** How many of the first `turns` jail turns are fined: those from the MAX_JAIL_TURNS-th on. */
  function Fined(turns: int): nat {
    if turns < MAX_JAIL_TURNS then 0 else turns - MAX_JAIL_TURNS + 1
  }

  /** Whether the supply of rolls holds the roll that ends the dice loop: any roll when jailed, a non-double otherwise. */
  predicate EndsWithin(rolls: seq<Roll>, inJail: bool)
    decreases |rolls|
  {
    |rolls| > 0 && (inJail || !IsDouble(rolls[0]) || EndsWithin(rolls[1..], inJail))
  }

  /** How many rolls the dice loop takes: one when jailed, up to and including the first non-double otherwise. */
  function RollsUsed(rolls: seq<Roll>, inJail: bool): (n: nat)
    requires EndsWithin(rolls, inJail)
    ensures 1 <= n <= |rolls|
    decreases |rolls|
  {
    if inJail || !IsDouble(rolls[0]) then 1 else 1 + RollsUsed(rolls[1..], inJail)
  }

  /** Where the dice loop leaves a player who starts at `tile`. */
  function TileAfterRolls(tile: int, inJail: bool, rolls: seq<Roll>, boardLength: int): int
    requires EndsWithin(rolls, inJail)
    decreases |rolls|
  {
    var moved := if !inJail || IsDouble(rolls[0]) then AdvanceIndex(tile, Total(rolls[0]), boardLength) else tile;
    if inJail || !IsDouble(rolls[0]) then moved else TileAfterRolls(moved, inJail, rolls[1..], boardLength)
  }

  /** A jailed player throws once, and moves by the throw exactly when it is a double. */
  lemma DiceInJail(tile: int, rolls: seq<Roll>, boardLength: int)
    requires |rolls| > 0
    ensures EndsWithin(rolls, true) && RollsUsed(rolls, true) == 1
    ensures IsDouble(rolls[0]) ==> TileAfterRolls(tile, true, rolls, boardLength) == AdvanceIndex(tile, Total(rolls[0]), boardLength)
    ensures !IsDouble(rolls[0]) ==> TileAfterRolls(tile, true, rolls, boardLength) == tile
  {
  }

  /**
   * A free player throws again exactly after a double: every throw the loop
   * takes but the last is a double, and the last is not.
   */
  lemma {:induction false} DiceWhileDoubles(rolls: seq<Roll>)
    requires EndsWithin(rolls, false)
    ensures forall k :: 0 <= k < RollsUsed(rolls, false) - 1 ==> IsDouble(rolls[k])
    ensures !IsDouble(rolls[RollsUsed(rolls, false) - 1])
    decreases |rolls|
  {
    if IsDouble(rolls[0]) {
      DiceWhileDoubles(rolls[1..]);
      forall k | 0 <= k < RollsUsed(rolls, false) - 1
        ensures IsDouble(rolls[k])
      {
        if k > 0 {
          assert rolls[k] == rolls[1..][k - 1];
        }
      }
      assert rolls[RollsUsed(rolls, false) - 1] == rolls[1..][RollsUsed(rolls[1..], false) - 1];
    }
  }

  /** Splitting off the rolls already taken: what remains decides the rest of the loop. */
  lemma DiceStep(tile: int, inJail: bool, rolls: seq<Roll>, used: nat, boardLength: int)
    requires used < |rolls| && EndsWithin(rolls[used..], inJail)
    requires !inJail && IsDouble(rolls[used])
    ensures EndsWithin(rolls[used + 1..], inJail)
    ensures RollsUsed(rolls[used..], inJail) == 1 + RollsUsed(rolls[used + 1..], inJail)
    ensures TileAfterRolls(tile, inJail, rolls[used..], boardLength)
            == TileAfterRolls(AdvanceIndex(tile, Total(rolls[used]), boardLength), inJail, rolls[used + 1..], boardLength)
  {
    assert rolls[used..][0] == rolls[used];
    assert rolls[used..][1..] == rolls[used + 1..];
  }
  /** The throw that ends the loop: it is the last one taken, and moves the player unless a jailed player misses a double. */
  lemma DiceLast(tile: int, inJail: bool, rolls: seq<Roll>, used: nat, boardLength: int)
    requires used < |rolls| && EndsWithin(rolls[used..], inJail)
    requires inJail || !IsDouble(rolls[used])
    ensures RollsUsed(rolls[used..], inJail) == 1
    ensures TileAfterRolls(tile, inJail, rolls[used..], boardLength)
            == if !inJail || IsDouble(rolls[used]) then AdvanceIndex(tile, Total(rolls[used]), boardLength) else tile
  {
    assert rolls[used..][0] == rolls[used];
  }


  // -------------------------------------------------------------- seat order

  /** The player records after the dice of `determinePlayerOrder`: last roll, total, and board[0]. */
  function SeatForOrder(p: InGamePlayer, roll: Roll): InGamePlayer {
    p.(lastRoll := Some(roll), rollSequence := Total(roll), onTile := 0)
  }

  /** Every player of `ps` seated for the order with the roll of the same position. */
  function SeatAllForOrder(ps: seq<InGamePlayer>, rolls: seq<Roll>): seq<InGamePlayer>
    requires |ps| == |rolls|
  {
    seq(|ps|, i requires 0 <= i < |ps| => SeatForOrder(ps[i], rolls[i]))
  }

  /** Seating for the order keeps the ids, and puts every player on board[0] with a total of 2 to 12. */
  lemma SeatAllForOrderFacts(ps: seq<InGamePlayer>, rolls: seq<Roll>)
    requires |ps| == |rolls| && PlayerIdsUnique(ps)
    requires forall i :: 0 <= i < |rolls| ==> ValidRoll(rolls[i])
    ensures PlayerIdsUnique(SeatAllForOrder(ps, rolls))
    ensures forall p :: p in SeatAllForOrder(ps, rolls) ==> p.onTile == 0 && 2 <= p.rollSequence <= 12
  {
    var seated := SeatAllForOrder(ps, rolls);
    assert forall i :: 0 <= i < |ps| ==> seated[i].id == ps[i].id;
  }

  /** Players in non-increasing order of their dice totals. */
  predicate SortedByRoll(ps: seq<InGamePlayer>) {
    forall i, j :: 0 <= i < j < |ps| ==> ps[i].rollSequence >= ps[j].rollSequence
  }

  function Swap(ps: seq<InGamePlayer>, i: int, j: int): (qs: seq<InGamePlayer>)
    requires 0 <= i < |ps| && 0 <= j < |ps|
    ensures |qs| == |ps| && qs[i] == ps[j] && qs[j] == ps[i]
    ensures forall k :: 0 <= k < |ps| && k != i && k != j ==> qs[k] == ps[k]
    ensures multiset(qs) == multiset(ps)
  {
    ps[i := ps[j]][j := ps[i]]
  }

  /** Exchanging two players keeps the ids unique. */
  lemma SwapKeepsIds(ps: seq<InGamePlayer>, i: int, j: int)
    requires 0 <= i < |ps| && 0 <= j < |ps| && PlayerIdsUnique(ps)
    ensures PlayerIdsUnique(Swap(ps, i, j))
  {
    var qs := Swap(ps, i, j);
    forall x, y | 0 <= x < y < |qs|
      ensures qs[x].id != qs[y].id
    {
      var x' := if x == i then j else if x == j then i else x;
      var y' := if y == i then j else if y == j then i else y;
      assert qs[x] == ps[x'] && qs[y] == ps[y'] && x' != y';
    }
  }

  /**
   * One step of the insertion: moving the player at `j`, which out-ranks the
   * one before it, one place left keeps the rest of [0, i] in order.
   */
  lemma InsertStep(b: seq<InGamePlayer>, i: int, j: int)
    requires 0 < j <= i < |b|
    requires b[j - 1].rollSequence < b[j].rollSequence
    requires forall x, y :: 0 <= x < y <= i && x != j && y != j ==> b[x].rollSequence >= b[y].rollSequence
    requires forall y :: j < y <= i ==> b[j].rollSequence > b[y].rollSequence
    ensures var c := Swap(b, j - 1, j);
            && (forall x, y :: 0 <= x < y <= i && x != j - 1 && y != j - 1 ==> c[x].rollSequence >= c[y].rollSequence)
            && (forall y :: j - 1 < y <= i ==> c[j - 1].rollSequence > c[y].rollSequence)
  {
  }

  /** When the moving player no longer out-ranks the one before it, [0, i] is in order. */
  lemma InsertDone(b: seq<InGamePlayer>, i: int, j: int)
    requires 0 <= j <= i < |b|
    requires j == 0 || b[j - 1].rollSequence >= b[j].rollSequence
    requires forall x, y :: 0 <= x < y <= i && x != j && y != j ==> b[x].rollSequence >= b[y].rollSequence
    requires forall y :: j < y <= i ==> b[j].rollSequence > b[y].rollSequence
    ensures forall x, y :: 0 <= x < y <= i ==> b[x].rollSequence >= b[y].rollSequence
  {
    forall x, y | 0 <= x < y <= i
      ensures b[x].rollSequence >= b[y].rollSequence
    {
      if y == j && x < j - 1 {
        assert b[x].rollSequence >= b[j - 1].rollSequence;
      }
    }
  }

  /**
   * One pass of the insertion sort: the player at `i` moves left past every
   * player with a smaller total, so the first i + 1 players end up sorted.
   */
  method InsertAt(a: seq<InGamePlayer>, i: int) returns (b: seq<InGamePlayer>)
    requires 0 <= i < |a|
    requires forall x, y :: 0 <= x < y < i ==> a[x].rollSequence >= a[y].rollSequence
    ensures |b| == |a| && multiset(b) == multiset(a)
    ensures forall k :: 0 <= k < |b| ==> b[k] in a
    ensures PlayerIdsUnique(a) ==> PlayerIdsUnique(b)
    ensures forall x, y :: 0 <= x < y <= i ==> b[x].rollSequence >= b[y].rollSequence
  {
    b := a;
    var j := i;
    while j > 0 && b[j - 1].rollSequence < b[j].rollSequence
      invariant 0 <= j <= i
      invariant |b| == |a| && multiset(b) == multiset(a)
      invariant PlayerIdsUnique(a) ==> PlayerIdsUnique(b)
      invariant forall x, y :: 0 <= x < y <= i && x != j && y != j ==> b[x].rollSequence >= b[y].rollSequence
      invariant forall y :: j < y <= i ==> b[j].rollSequence > b[y].rollSequence
    {
      InsertStep(b, i, j);
      if PlayerIdsUnique(a) {
        SwapKeepsIds(b, j - 1, j);
      }
      b := Swap(b, j - 1, j);
      j := j - 1;
    }
    InsertDone(b, i, j);
    forall k | 0 <= k < |b|
      ensures b[k] in a
    {
      assert b[k] in multiset(b);
    }
  }

  /**
   * `ingamePlayers.sort((p1, p2) => -(p1.rollSequence - p2.rollSequence))`:
   * an insertion sort into non-increasing order of dice totals.
   */
  method SortByRoll(ps: seq<InGamePlayer>) returns (a: seq<InGamePlayer>)
    requires PlayerIdsUnique(ps)
    ensures multiset(a) == multiset(ps)
    ensures SortedByRoll(a)
    ensures |a| == |ps| && forall i :: 0 <= i < |a| ==> a[i] in ps
    ensures PlayerIdsUnique(a)
  {
    a := ps;
    var i := 0;
    while i < |a|
      invariant 0 <= i <= |a| == |ps|
      invariant multiset(a) == multiset(ps)
      invariant forall k :: 0 <= k < |a| ==> a[k] in ps
      invariant PlayerIdsUnique(a)
      invariant forall x, y :: 0 <= x < y < i ==> a[x].rollSequence >= a[y].rollSequence
    {
      a := InsertAt(a, i);
      i := i + 1;
    }
  }

  // ------------------------------------------------------------------ money

  /** The money of all players together. */
  function TotalMoney(ps: seq<InGamePlayer>): int
    decreases |ps|
  {
    if |ps| == 0 then 0 else TotalMoney(ps[..|ps| - 1]) + ps[|ps| - 1].money
  }

  /** How many players have an id other than `playerId`: `filter(p => p.id != player.id).length`. */
  function OthersCount(ps: seq<InGamePlayer>, playerId: int): nat
    decreases |ps|
  {
    if |ps| == 0 then 0
    else OthersCount(ps[..|ps| - 1], playerId) + (if ps[|ps| - 1].id != playerId then 1 else 0)
  }

  /** Changing one player's money changes the total by the same amount. */
  lemma {:induction false} TotalMoneyUpdate(ps: seq<InGamePlayer>, k: int, p: InGamePlayer)
    requires 0 <= k < |ps|
    ensures TotalMoney(ps[k := p]) == TotalMoney(ps) - ps[k].money + p.money
    decreases |ps|
  {
    var n := |ps| - 1;
    if k < n {
      assert ps[k := p][..n] == ps[..n][k := p];
      TotalMoneyUpdate(ps[..n], k, p);
    } else {
      assert ps[k := p][..n] == ps[..n];
    }
  }

  /** Crediting `amount` to every player whose id is not `playerId` raises the total by that much per such player. */
  lemma {:induction false} TotalMoneyCredit(a: seq<InGamePlayer>, b: seq<InGamePlayer>, playerId: int, amount: int)
    requires |a| == |b|
    requires forall j :: 0 <= j < |a| ==> b[j].money == a[j].money + (if a[j].id != playerId then amount else 0)
    ensures TotalMoney(b) == TotalMoney(a) + amount * OthersCount(a, playerId)
    decreases |a|
  {
    if |a| > 0 {
      var n := |a| - 1;
      TotalMoneyCredit(a[..n], b[..n], playerId, amount);
    }
  }

  // ------------------------------------------------------------------- game

  /** The game: the board, the seated players, whose turn it is, the state, and the calls made to undefined members. */
  class MonopolyGame {
    var board: seq<Tile>
    var ingamePlayers: seq<InGamePlayer>
    var currentPlayerIndex: int
    var gameState: GameState
    var calls: seq<HostCall>

    /** What every game satisfies once built: a board starting at GO, and tile and player ids that are unique. */
    predicate Valid()
      reads this
    {
      && |board| > 0
      && board[0].info.tileType == Some(GO)
      && TileIdsUnique(board)
      && PlayerIdsUnique(ingamePlayers)
    }

    /** The state the constructor leaves behind, once the board and players are built. */
    constructor Init(board: seq<Tile>, players: seq<InGamePlayer>)
      ensures this.board == board && ingamePlayers == players
      ensures currentPlayerIndex == -1 && gameState == INIT && calls == []
    {
      this.board := board;
      ingamePlayers := players;
      currentPlayerIndex := -1;
      gameState := INIT;
      calls := [];
    }

    /**
     * `new MonopolyGame({players})` over the board table `tileData`: one
     * record per template, row by row, the players seated in order, and the
     * InvalidBoardConfigError when the first tile is not GO.
     */
    static method Create(tileData: seq<seq<BoardTile>>, players: seq<Player>) returns (r: Result<MonopolyGame, GameError>)
      requires |Flatten(tileData)| > 0
      ensures r.Err? <==> Flatten(tileData)[0].tileType != Some(GO)
      ensures r.Err? ==> r.error == InvalidBoardConfigError("The first tile is not GO!")
      ensures r.Ok? ==> fresh(r.value) && r.value.Valid()
      ensures r.Ok? ==> r.value.board == BoardOf(tileData) && |r.value.ingamePlayers| == |players|
      ensures r.Ok? ==> forall i :: 0 <= i < |players| ==>
                r.value.ingamePlayers[i] == NewInGamePlayer(players[i], i)
      ensures r.Ok? ==> r.value.currentPlayerIndex == -1 && r.value.gameState == INIT && r.value.calls == []
    {
      var board := BuildBoard(tileData);
      var ps := SeatPlayers(players);
      var check := BoardConfigCheck(board);
      if check.Fail? {
        return Err(check.error);
      }
      var g := new MonopolyGame.Init(board, ps);
      return Ok(g);
    }

    /** `getTileIndex` as intended: the index of the tile with that id, -1 when there is none. */
    method GetTileIndex(tileId: string) returns (index: int)
      ensures index == TileIndexOf(board, tileId)
      ensures index >= 0 ==> board[index].id == tileId
      ensures index == -1 <==> forall j :: 0 <= j < |board| ==> board[j].id != tileId
    {
      var i := 0;
      while i < |board|
        invariant 0 <= i <= |board|
        invariant forall j :: 0 <= j < i ==> board[j].id != tileId
      {
        if board[i].id == tileId {
          return i;
        }
        i := i + 1;
      }
      return -1;
    }

    /** `advancePlayer(playerId, pos)`: the player's new index, as computed by AdvanceIndex. */
    method AdvancePlayer(playerId: int, pos: int)
      requires PlayerIndexOf(ingamePlayers, playerId) >= 0
      modifies this
      ensures old(Valid()) ==> Valid()
      ensures var k := PlayerIndexOf(old(ingamePlayers), playerId);
              ingamePlayers == old(ingamePlayers)[k := old(ingamePlayers)[k].(
                onTile := AdvanceIndex(old(ingamePlayers)[k].onTile, pos, |board|))]
      ensures board == old(board) && currentPlayerIndex == old(currentPlayerIndex)
      ensures gameState == old(gameState) && calls == old(calls)
    {
      var k := PlayerIndexOf(ingamePlayers, playerId);
      var p := ingamePlayers[k];
      var tileIndex := p.onTile;
      if tileIndex < |board| - 1 {
        tileIndex := tileIndex + pos;
      } else {
        tileIndex := tileIndex + pos - |board|;
      }
      ingamePlayers := ingamePlayers[k := p.(onTile := tileIndex)];
    }

    /** `advancePlayerToTile(playerId, tile)` as its name promises: the player ends on that tile. */
    method AdvancePlayerToTile(playerId: int, tile: Tile)
      requires PlayerIndexOf(ingamePlayers, playerId) >= 0
      modifies this
      ensures old(Valid()) ==> Valid()
      ensures var k := PlayerIndexOf(old(ingamePlayers), playerId);
              ingamePlayers == old(ingamePlayers)[k := old(ingamePlayers)[k].(onTile := TileIndexOf(board, tile.id))]
      ensures board == old(board) && currentPlayerIndex == old(currentPlayerIndex)
      ensures gameState == old(gameState) && calls == old(calls)
    {
      var index := GetTileIndex(tile.id);
      var k := PlayerIndexOf(ingamePlayers, playerId);
      ingamePlayers := ingamePlayers[k := ingamePlayers[k].(onTile := index)];
    }

    /** `advancePlayerToTile` as written: it advances the player BY the tile's index. */
    method AdvancePlayerToTileAsWritten(playerId: int, tile: Tile)
      requires PlayerIndexOf(ingamePlayers, playerId) >= 0
      modifies this
      ensures old(Valid()) ==> Valid()
      ensures var k := PlayerIndexOf(old(ingamePlayers), playerId);
              ingamePlayers == old(ingamePlayers)[k := old(ingamePlayers)[k].(
                onTile := AdvanceIndex(old(ingamePlayers)[k].onTile, TileIndexOf(board, tile.id), |board|))]
      ensures board == old(board) && currentPlayerIndex == old(currentPlayerIndex)
      ensures gameState == old(gameState) && calls == old(calls)
    {
      var index := GetTileIndex(tile.id);
      AdvancePlayer(playerId, index);
    }

    /**
     * `goToJail`: the player is flagged as jailed with a fresh counter and
     * placed on the first GO_TO_JAIL tile, the kind the source asks for.
     */
    method GoToJail(playerId: int)
      requires Valid() && PlayerIndexOf(ingamePlayers, playerId) >= 0
      requires KindIndexOf(board, GO_TO_JAIL) >= 0
      modifies this
      ensures Valid()
      ensures var k := PlayerIndexOf(old(ingamePlayers), playerId);
              ingamePlayers == old(ingamePlayers)[k := old(ingamePlayers)[k].(
                inJail := true, inJailTurns := 0, onTile := KindIndexOf(board, GO_TO_JAIL))]
      ensures board == old(board) && currentPlayerIndex == old(currentPlayerIndex)
      ensures gameState == old(gameState) && calls == old(calls)
    {
      var k := PlayerIndexOf(ingamePlayers, playerId);
      ingamePlayers := ingamePlayers[k := ingamePlayers[k].(inJail := true, inJailTurns := 0)];
      PlayerIndexOfSameIds(ingamePlayers, old(ingamePlayers), playerId);
      var tile := FindTileByType(board, GO_TO_JAIL);
      TileIndexOfOwnId(board, KindIndexOf(board, GO_TO_JAIL));
      AdvancePlayerToTile(playerId, tile.value);
    }

    /**
     * `determinePlayerOrder` with the dice it throws, one roll per seated
     * player in seating order: every player is put on board[0] with the
     * roll's total, then the players are sorted by non-increasing total.
     */
    method DeterminePlayerOrder(rolls: seq<Roll>)
      requires Valid()
      requires |rolls| == |ingamePlayers|
      requires forall i :: 0 <= i < |rolls| ==> ValidRoll(rolls[i])
      modifies this
      ensures Valid()
      ensures multiset(ingamePlayers) == multiset(SeatAllForOrder(old(ingamePlayers), rolls))
      ensures SortedByRoll(ingamePlayers)
      ensures forall i :: 0 <= i < |ingamePlayers| ==>
                ingamePlayers[i].onTile == 0 && 2 <= ingamePlayers[i].rollSequence <= 12
      ensures currentPlayerIndex == 0 && gameState == READY
      ensures board == old(board) && calls == old(calls)
    {
      var ps := ingamePlayers;
      var seated := SeatAllForOrder(ps, rolls);
      var i := 0;
      while i < |ps|
        invariant 0 <= i <= |ps| == |rolls|
        invariant forall j :: 0 <= j < i ==> ps[j] == seated[j]
        invariant forall j :: i <= j < |ps| ==> ps[j] == ingamePlayers[j]
      {
        var roll := rolls[i];
        ps := ps[i := ps[i].(lastRoll := Some(roll), rollSequence := roll.die1 + roll.die2, onTile := 0)];
        i := i + 1;
      }
      assert ps == seated;
      SeatAllForOrderFacts(ingamePlayers, rolls);
      ps := SortByRoll(ps);
      ingamePlayers := ps;
      currentPlayerIndex := 0;
      gameState := READY;
    }

    /** The jail check of `run` for the player whose turn it is. */
    method JailTurn()
      requires 0 <= currentPlayerIndex < |ingamePlayers|
      modifies this
      ensures old(Valid()) ==> Valid()
      ensures board == old(board) && currentPlayerIndex == old(currentPlayerIndex)
      ensures gameState == old(gameState) && calls == old(calls)
      ensures ingamePlayers == old(ingamePlayers)[currentPlayerIndex := JailStep(old(ingamePlayers)[currentPlayerIndex])]
    {
      var p := ingamePlayers[currentPlayerIndex];
      if p.inJail {
        p := p.(inJailTurns := p.inJailTurns + 1);
        if p.inJailTurns >= MAX_JAIL_TURNS {
          p := p.(money := p.money - JAIL_FINE);
        }
      }
      ingamePlayers := ingamePlayers[currentPlayerIndex := p];
    }

    /**
     * The dice loop of `run` for the player whose turn it is, with `rolls` the
     * dice it throws in order. Returns how many throws it took and the double
     * counter; three doubles in a row change nothing (the source's branch for
     * them is empty).
     */
    method DiceLoop(rolls: seq<Roll>) returns (used: nat, doubleRolls: nat)
      requires Valid() && 0 <= currentPlayerIndex < |ingamePlayers|
      requires EndsWithin(rolls, ingamePlayers[currentPlayerIndex].inJail)
      modifies this
      ensures Valid()
      ensures board == old(board) && currentPlayerIndex == old(currentPlayerIndex)
      ensures gameState == old(gameState) && calls == old(calls)
      ensures var p := old(ingamePlayers)[currentPlayerIndex];
              && used == RollsUsed(rolls, p.inJail)
              && doubleRolls == (if p.inJail then 0 else used - 1)
              && ingamePlayers == old(ingamePlayers)[currentPlayerIndex := p.(
                   onTile := TileAfterRolls(p.onTile, p.inJail, rolls, |board|))]
    {
      var cur := currentPlayerIndex;
      var p0 := ingamePlayers[cur];
      var jailed := p0.inJail;
      used, doubleRolls := 0, 0;
      var anotherRollNeeded := true;
      while anotherRollNeeded
        invariant Valid()
        invariant board == old(board) && calls == old(calls)
        invariant currentPlayerIndex == cur && gameState == old(gameState)
        invariant |ingamePlayers| == |old(ingamePlayers)|
        invariant ingamePlayers == old(ingamePlayers)[cur := p0.(onTile := ingamePlayers[cur].onTile)]
        invariant used <= |rolls|
        invariant anotherRollNeeded ==>
                    && EndsWithin(rolls[used..], jailed)
                    && RollsUsed(rolls, jailed) == used + RollsUsed(rolls[used..], jailed)
                    && TileAfterRolls(p0.onTile, jailed, rolls, |board|)
                       == TileAfterRolls(ingamePlayers[cur].onTile, jailed, rolls[used..], |board|)
                    && doubleRolls == used && (jailed ==> used == 0)
        invariant !anotherRollNeeded ==>
                    && used == RollsUsed(rolls, jailed)
                    && ingamePlayers[cur].onTile == TileAfterRolls(p0.onTile, jailed, rolls, |board|)
                    && doubleRolls == (if jailed then 0 else used - 1)
        decreases |rolls| - used
      {
        var roll := rolls[used];
        assert rolls[used..][0] == roll;
        if !jailed && IsDouble(roll) {
          DiceStep(ingamePlayers[cur].onTile, jailed, rolls, used, |board|);
        } else {
          DiceLast(ingamePlayers[cur].onTile, jailed, rolls, used, |board|);
        }
        used := used + 1;
        if (ingamePlayers[cur].inJail && roll.die1 == roll.die2) || !ingamePlayers[cur].inJail {
          PlayerIndexOfOwnId(ingamePlayers, cur);
          AdvancePlayer(ingamePlayers[cur].id, roll.die1 + roll.die2);
        }
        anotherRollNeeded := !ingamePlayers[cur].inJail && roll.die1 == roll.die2;
        if anotherRollNeeded {
          doubleRolls := doubleRolls + 1;
        }
      }
    }

    /** Stands in for `payRent`, which the source calls but does not define: the call is recorded. */
    method PayRent(playerId: int, tileIndex: int, multiplier: Option<int>)
      modifies this
      ensures calls == old(calls) + [HostCall.PayRent(playerId, tileIndex, multiplier)]
      ensures board == old(board) && ingamePlayers == old(ingamePlayers)
      ensures currentPlayerIndex == old(currentPlayerIndex) && gameState == old(gameState)
    {
      calls := calls + [HostCall.PayRent(playerId, tileIndex, multiplier)];
    }

    /** Stands in for `passGo`, which the source calls but does not define: the call is recorded. */
    method PassGo(playerId: int)
      modifies this
      ensures calls == old(calls) + [HostCall.PassGo(playerId)]
      ensures board == old(board) && ingamePlayers == old(ingamePlayers)
      ensures currentPlayerIndex == old(currentPlayerIndex) && gameState == old(gameState)
    {
      calls := calls + [HostCall.PassGo(playerId)];
    }
  }
}
