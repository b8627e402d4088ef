/**
 * The card effects and the two UK decks (monopoly/core/CardData.js). Every
 * effect changes the game it is given: the drawing player's money, jail card or
 * position, the money of all seated players, or the record of calls the game
 * makes to `payRent` and `passGo`. The drawing player is named by id; the
 * source passes the player's own record, which is the seated record with that id.
 */
module CardData {
  import opened Wrappers
  import opened BoardTiles
  import opened BoardData
  import opened Players
  import opened MonopolyCards
  import opened Game

  /**
   * The members the effects call that the source does not define, as values:
   * `calcTileDistance(from, to)` and `isRentDue(playerId, tile)` over board
   * indices, and `getTileByCode(code)` giving a board index.
   */
  datatype Host = Host(
    tileDistance: (int, int) -> int,
    tileByCode: string -> int,
    rentDue: (int, int) -> bool)

  /** The contract of `getTileByCode`: whenever a tile carries a code, the lookup finds a tile with that code. */
  predicate FindsCodes(host: Host, board: seq<Tile>) {
    forall i :: 0 <= i < |board| && board[i].info.code.Some? ==>
      var t := host.tileByCode(board[i].info.code.value);
      0 <= t < |board| && board[t].info.code == board[i].info.code
  }

  /** A contract `calcTileDistance` may meet: the number of squares forward from one tile to the other. */
  predicate ForwardDistances(host: Host, boardLength: int)
    requires boardLength > 0
  {
    forall from, to :: 0 <= from < boardLength && 0 <= to < boardLength ==>
      host.tileDistance(from, to) == (to - from) % boardLength
  }

  /** Some tile of the board carries `code`. */
  predicate CodeOnBoard(board: seq<Tile>, code: string) {
    exists i :: 0 <= i < |board| && board[i].info.code == Some(code)
  }

  // ------------------------------------------------------------------ money

  /** The players after the one in seat `k` gains `amount` (a charge is a negative amount). */
  function Credit(ps: seq<InGamePlayer>, k: int, amount: int): seq<InGamePlayer>
    requires 0 <= k < |ps|
  {
    ps[k := ps[k].(money := ps[k].money + amount)]
  }

  /** A credit changes that one player's money by the amount, nothing else, and the total by the amount. */
  lemma CreditOnlyMoney(ps: seq<InGamePlayer>, k: int, amount: int)
    requires 0 <= k < |ps|
    ensures |Credit(ps, k, amount)| == |ps|
    ensures Credit(ps, k, amount)[k].money == ps[k].money + amount
    ensures Credit(ps, k, amount)[k].(money := ps[k].money) == ps[k]
    ensures forall j :: 0 <= j < |ps| && j != k ==> Credit(ps, k, amount)[j] == ps[j]
    ensures TotalMoney(Credit(ps, k, amount)) == TotalMoney(ps) + amount
  {
    TotalMoneyUpdate(ps, k, ps[k].(money := ps[k].money + amount));
  }

  /** Two lists of the same players in the same seats. */
  predicate SameIds(a: seq<InGamePlayer>, b: seq<InGamePlayer>) {
    |a| == |b| && forall j :: 0 <= j < |a| ==> a[j].id == b[j].id
  }

  /** Replacing one player's record by one with the same id and money keeps the seats and the total money. */
  lemma ReplaceKeepsMoney(ps: seq<InGamePlayer>, k: int, p: InGamePlayer)
    requires 0 <= k < |ps| && p.id == ps[k].id && p.money == ps[k].money
    ensures SameIds(ps, ps[k := p])
    ensures TotalMoney(ps[k := p]) == TotalMoney(ps)
  {
    TotalMoneyUpdate(ps, k, p);
  }

  /** `player.money += amount` (or `-=` for a charge). */
  method CollectMoney(game: MonopolyGame, playerId: int, amount: int)
    requires game.Valid() && PlayerIndexOf(game.ingamePlayers, playerId) >= 0
    modifies game
    ensures game.Valid()
    ensures SameIds(old(game.ingamePlayers), game.ingamePlayers)
    ensures TotalMoney(game.ingamePlayers) == TotalMoney(old(game.ingamePlayers)) + amount
    ensures game.ingamePlayers ==
              Credit(old(game.ingamePlayers), PlayerIndexOf(old(game.ingamePlayers), playerId), amount)
    ensures game.board == old(game.board) && game.calls == old(game.calls)
    ensures game.currentPlayerIndex == old(game.currentPlayerIndex) && game.gameState == old(game.gameState)
  {
    var k := PlayerIndexOf(game.ingamePlayers, playerId);
    var player := game.ingamePlayers[k];
    game.ingamePlayers := game.ingamePlayers[k := player.(money := player.money + amount)];
    CreditOnlyMoney(old(game.ingamePlayers), k, amount);
  }

  /**
   * The money `reduce((acc, p) => acc + p.hotels*perHotel + p.houses*perHouse, 0)`
   * adds up over `properties`, tile by tile from the left.
   */
  function RepairCost(properties: seq<Tile>, perHouse: int, perHotel: int): int
    decreases |properties|
  {
    if |properties| == 0 then 0
    else
      var p := properties[|properties| - 1];
      RepairCost(properties[..|properties| - 1], perHouse, perHotel) + p.hotels * perHotel + p.houses * perHouse
  }

  /** Repairs cost nothing negative when the rates and the building counts are not negative. */
  lemma {:induction false} RepairCostNonNegative(properties: seq<Tile>, perHouse: int, perHotel: int)
    requires perHouse >= 0 && perHotel >= 0
    requires forall i :: 0 <= i < |properties| ==> properties[i].houses >= 0 && properties[i].hotels >= 0
    ensures RepairCost(properties, perHouse, perHotel) >= 0
    decreases |properties|
  {
    if |properties| > 0 {
      RepairCostNonNegative(properties[..|properties| - 1], perHouse, perHotel);
    }
  }

  /** Without houses or hotels there is nothing to pay, whatever the rates. */
  lemma {:induction false} RepairCostNoBuildings(properties: seq<Tile>, perHouse: int, perHotel: int)
    requires forall i :: 0 <= i < |properties| ==> properties[i].houses == 0 && properties[i].hotels == 0
    ensures RepairCost(properties, perHouse, perHotel) == 0
    decreases |properties|
  {
    if |properties| > 0 {
      RepairCostNoBuildings(properties[..|properties| - 1], perHouse, perHotel);
    }
  }

  /** The cost of two lists of tiles is the sum of their costs: each building is paid for once. */
  lemma {:induction false} RepairCostAppend(a: seq<Tile>, b: seq<Tile>, perHouse: int, perHotel: int)
    ensures RepairCost(a + b, perHouse, perHotel) == RepairCost(a, perHouse, perHotel) + RepairCost(b, perHouse, perHotel)
    decreases |b|
  {
    if |b| == 0 {
      assert a + b == a;
    } else {
      var n := |b| - 1;
      assert (a + b)[..|a + b| - 1] == a + b[..n];
      RepairCostAppend(a, b[..n], perHouse, perHotel);
    }
  }

  /** A board where no tile has an owner lists no tiles for anyone. */
  lemma {:induction false} OwnedByNobody(board: seq<Tile>, playerId: int)
    requires forall i :: 0 <= i < |board| ==> board[i].ownedPlayerId.None?
    ensures OwnedBy(board, playerId) == []
    decreases |board|
  {
    if |board| > 0 {
      OwnedByNobody(board[1..], playerId);
    }
  }

  /** On a freshly built board nobody owns a tile, so repairs cost nothing. */
  lemma FreshBoardNoRepairs(tileData: seq<seq<BoardTile>>, playerId: int, perHouse: int, perHotel: int)
    ensures OwnedBy(BoardOf(tileData), playerId) == []
    ensures RepairCost(OwnedBy(BoardOf(tileData), playerId), perHouse, perHotel) == 0
  {
    BoardOfShape(tileData);
    OwnedByNobody(BoardOf(tileData), playerId);
  }

  /**
   * The repairs cards: the drawing player pays `perHouse` for each house and
   * `perHotel` for each hotel on the tiles `getPlayerAssets` lists as theirs.
   */
  method ChargeRepairs(game: MonopolyGame, playerId: int, perHouse: int, perHotel: int)
    requires game.Valid() && PlayerIndexOf(game.ingamePlayers, playerId) >= 0
    modifies game
    ensures game.Valid()
    ensures SameIds(old(game.ingamePlayers), game.ingamePlayers)
    ensures TotalMoney(game.ingamePlayers) == TotalMoney(old(game.ingamePlayers))
              - RepairCost(OwnedBy(old(game.board), playerId), perHouse, perHotel)
    ensures game.ingamePlayers ==
              Credit(old(game.ingamePlayers), PlayerIndexOf(old(game.ingamePlayers), playerId),
                     -RepairCost(OwnedBy(old(game.board), playerId), perHouse, perHotel))
    ensures game.board == old(game.board) && game.calls == old(game.calls)
    ensures game.currentPlayerIndex == old(game.currentPlayerIndex) && game.gameState == old(game.gameState)
  {
    var playerProperties := GetPlayerAssets(game.board, game.ingamePlayers, playerId).properties;
    var repairCost := RepairCost(playerProperties, perHouse, perHotel);
    CollectMoney(game, playerId, -repairCost);
  }

  /** A player's record after they gain `amount`. */
  function Gain(p: InGamePlayer, amount: int): InGamePlayer {
    p.(money := p.money + amount)
  }

  /** The players after every player whose id is not `playerId` gains `amount`. */
  function CreditOthers(ps: seq<InGamePlayer>, playerId: int, amount: int): seq<InGamePlayer> {
    seq(|ps|, j requires 0 <= j < |ps| => if ps[j].id != playerId then Gain(ps[j], amount) else ps[j])
  }

  /** What a player with id `playerId` pays when paying `amount` to every player in `ps` with another id. */
  function OthersDebit(ps: seq<InGamePlayer>, playerId: int, amount: int): int
    decreases |ps|
  {
    if |ps| == 0 then 0
    else OthersDebit(ps[..|ps| - 1], playerId, amount) + (if ps[|ps| - 1].id != playerId then amount else 0)
  }

  /** The payer pays `amount` once per other player. */
  lemma {:induction false} OthersDebitCounts(ps: seq<InGamePlayer>, playerId: int, amount: int)
    ensures OthersDebit(ps, playerId, amount) == amount * OthersCount(ps, playerId)
    decreases |ps|
  {
    if |ps| > 0 {
      OthersDebitCounts(ps[..|ps| - 1], playerId, amount);
    }
  }

  /**
   * The players after the one with id `playerId` pays `amount` to every
   * player with another id: each of those gains `amount` once and the payer
   * loses it once per such player. A negative amount collects from them.
   */
  function PaidEachOther(ps: seq<InGamePlayer>, playerId: int, amount: int): seq<InGamePlayer>
    requires PlayerIndexOf(ps, playerId) >= 0
  {
    var k := PlayerIndexOf(ps, playerId);
    CreditOthers(ps, playerId, amount)[k := Gain(ps[k], -OthersDebit(ps, playerId, amount))]
  }

  /** A payment to each other player changes nothing but money. */
  lemma PaidEachOtherOnlyMoney(ps: seq<InGamePlayer>, playerId: int, amount: int)
    requires PlayerIndexOf(ps, playerId) >= 0
    ensures SameIds(ps, PaidEachOther(ps, playerId, amount))
    ensures forall j :: 0 <= j < |ps| ==> PaidEachOther(ps, playerId, amount)[j].(money := ps[j].money) == ps[j]
  {
  }

  /** A payment to each other player leaves the money of all players together unchanged. */
  lemma PaidEachOtherConserves(ps: seq<InGamePlayer>, playerId: int, amount: int)
    requires PlayerIndexOf(ps, playerId) >= 0
    ensures TotalMoney(PaidEachOther(ps, playerId, amount)) == TotalMoney(ps)
  {
    var k := PlayerIndexOf(ps, playerId);
    var credited := CreditOthers(ps, playerId, amount);
    assert forall j :: 0 <= j < |ps| ==>
      credited[j].money == ps[j].money + (if ps[j].id != playerId then amount else 0);
    TotalMoneyCredit(ps, credited, playerId, amount);
    assert credited[k] == ps[k];
    OthersDebitCounts(ps, playerId, amount);
    TotalMoneyUpdate(credited, k, Gain(ps[k], -OthersDebit(ps, playerId, amount)));
  }

  /**
   * Chairman of the board, Grand Opera Night and Birthday:
   * `inGamePlayers.filter(p => p.id != player.id).forEach(p => { p.money += amount; player.money -= amount; })`.
   */
  method PayEachOther(game: MonopolyGame, playerId: int, amount: int)
    requires game.Valid() && PlayerIndexOf(game.ingamePlayers, playerId) >= 0
    modifies game
    ensures game.Valid()
    ensures SameIds(old(game.ingamePlayers), game.ingamePlayers)
    ensures TotalMoney(game.ingamePlayers) == TotalMoney(old(game.ingamePlayers))
    ensures game.ingamePlayers == PaidEachOther(old(game.ingamePlayers), playerId, amount)
    ensures game.board == old(game.board) && game.calls == old(game.calls)
    ensures game.currentPlayerIndex == old(game.currentPlayerIndex) && game.gameState == old(game.gameState)
  {
    var k := PlayerIndexOf(game.ingamePlayers, playerId);
    var ps := PayOthers(game.ingamePlayers, k, playerId, amount);
    PaidEachOtherAt(game.ingamePlayers, ps, playerId, amount);
    PaidEachOtherOnlyMoney(game.ingamePlayers, playerId, amount);
    PaidEachOtherConserves(game.ingamePlayers, playerId, amount);
    game.ingamePlayers := ps;
  }

  /**
   * The transfer loop of PayEachOther over the seated players, the payer in
   * seat `k`; the filter is folded into the loop's test. It ends with every
   * other player credited and the payer debited once per other player.
   */
  method PayOthers(ps0: seq<InGamePlayer>, k: int, playerId: int, amount: int) returns (ps: seq<InGamePlayer>)
    requires 0 <= k < |ps0| && ps0[k].id == playerId
    ensures PaidUpTo(ps0, ps, k, playerId, amount, |ps0|, OthersDebit(ps0, playerId, amount))
  {
    ps := ps0;
    var i := 0;
    ghost var debit := 0;
    while i < |ps|
      invariant 0 <= i <= |ps|
      invariant PaidUpTo(ps0, ps, k, playerId, amount, i, debit)
      invariant debit == OthersDebit(ps0[..i], playerId, amount)
    {
      PayStep(ps0, ps, k, playerId, amount, i, debit);
      if ps[i].id != playerId {
        ps := ps[i := Gain(ps[i], amount)];
        ps := ps[k := Gain(ps[k], -amount)];
        debit := debit + amount;
      }
      i := i + 1;
    }
    assert ps0[..|ps0|] == ps0;
  }

  /**
   * The transfer loop's state after it has visited the first `i` players:
   * those of them with another id have gained `amount`, the payer has paid
   * `debit` in all, and everybody else is as before.
   */
  predicate PaidUpTo(ps0: seq<InGamePlayer>, ps: seq<InGamePlayer>, k: int, playerId: int, amount: int, i: int, debit: int) {
    && |ps| == |ps0| && 0 <= k < |ps0| && ps0[k].id == playerId
    && (forall j :: 0 <= j < i && j < |ps| && j != k && ps0[j].id != playerId ==> ps[j] == Gain(ps0[j], amount))
    && (forall j :: 0 <= j < |ps| && j != k && (i <= j || ps0[j].id == playerId) ==> ps[j] == ps0[j])
    && ps[k] == Gain(ps0[k], -debit)
  }

  /** One turn of the transfer loop keeps PaidUpTo, one player further on. */
  lemma PayStep(ps0: seq<InGamePlayer>, ps: seq<InGamePlayer>, k: int, playerId: int, amount: int, i: int, debit: int)
    requires PaidUpTo(ps0, ps, k, playerId, amount, i, debit) && 0 <= i < |ps0|
    ensures ps[i].id == ps0[i].id
    ensures ps0[i].id != playerId ==>
              && i != k
              && PaidUpTo(ps0, ps[i := Gain(ps[i], amount)][k := Gain(ps[k], -amount)], k, playerId, amount, i + 1, debit + amount)
              && OthersDebit(ps0[..i + 1], playerId, amount) == OthersDebit(ps0[..i], playerId, amount) + amount
    ensures ps0[i].id == playerId ==>
              && PaidUpTo(ps0, ps, k, playerId, amount, i + 1, debit)
              && OthersDebit(ps0[..i + 1], playerId, amount) == OthersDebit(ps0[..i], playerId, amount)
  {
    assert ps0[..i + 1][..i] == ps0[..i];
  }

  /** A list of players that matches PaidEachOther seat by seat is PaidEachOther. */
  lemma PaidEachOtherAt(ps0: seq<InGamePlayer>, ps: seq<InGamePlayer>, playerId: int, amount: int)
    requires PlayerIndexOf(ps0, playerId) >= 0
    requires PaidUpTo(ps0, ps, PlayerIndexOf(ps0, playerId), playerId, amount, |ps0|, OthersDebit(ps0, playerId, amount))
    ensures ps == PaidEachOther(ps0, playerId, amount)
  {
    var paid := PaidEachOther(ps0, playerId, amount);
    assert forall j :: 0 <= j < |ps| ==> ps[j] == paid[j];
  }

  /** The chance card's `player.getOutOfJailCard = true`. */
  method GrantJailCard(game: MonopolyGame, playerId: int)
    requires game.Valid() && PlayerIndexOf(game.ingamePlayers, playerId) >= 0
    modifies game
    ensures game.Valid()
    ensures SameIds(old(game.ingamePlayers), game.ingamePlayers)
    ensures TotalMoney(game.ingamePlayers) == TotalMoney(old(game.ingamePlayers))
    ensures var k := PlayerIndexOf(old(game.ingamePlayers), playerId);
            game.ingamePlayers == old(game.ingamePlayers)[k := old(game.ingamePlayers)[k].(getOutOfJailCard := true)]
    ensures game.board == old(game.board) && game.calls == old(game.calls)
    ensures game.currentPlayerIndex == old(game.currentPlayerIndex) && game.gameState == old(game.gameState)
  {
    var k := PlayerIndexOf(game.ingamePlayers, playerId);
    var player := game.ingamePlayers[k];
    game.ingamePlayers := game.ingamePlayers[k := player.(getOutOfJailCard := true)];
    ReplaceKeepsMoney(old(game.ingamePlayers), k, player.(getOutOfJailCard := true));
  }

  // --------------------------------------------------------------- movement

  /** The Advance-to-GO cards: the player moves to the GO tile, and `passGo` is called once. */
  method AdvanceToGo(game: MonopolyGame, playerId: int)
    requires game.Valid() && PlayerIndexOf(game.ingamePlayers, playerId) >= 0
    modifies game
    ensures game.Valid()
    ensures SameIds(old(game.ingamePlayers), game.ingamePlayers)
    ensures TotalMoney(game.ingamePlayers) == TotalMoney(old(game.ingamePlayers))
    ensures var k := PlayerIndexOf(old(game.ingamePlayers), playerId);
            game.ingamePlayers == old(game.ingamePlayers)[k := old(game.ingamePlayers)[k].(onTile := 0)]
    ensures game.board[0].info.tileType == Some(GO)
    ensures game.calls == old(game.calls) + [HostCall.PassGo(playerId)]
    ensures game.board == old(game.board)
    ensures game.currentPlayerIndex == old(game.currentPlayerIndex) && game.gameState == old(game.gameState)
  {
    var tile := FindTileByType(game.board, GO);
    assert KindIndexOf(game.board, GO) == 0;
    FirstTileIdIsIndexZero(game.board);
    game.AdvancePlayerToTile(playerId, tile.value);
    game.PassGo(playerId);
    var k := PlayerIndexOf(old(game.ingamePlayers), playerId);
    ReplaceKeepsMoney(old(game.ingamePlayers), k, old(game.ingamePlayers)[k].(onTile := 0));
  }

  /**
   * `advanceToAndPassGo(game, player, code)`: the player advances by the
   * distance from their tile to the tile with `code`, and rent is paid there
   * when it is due. Nothing here calls `passGo`, whatever the name says.
   */
  method AdvanceToAndPassGo(game: MonopolyGame, playerId: int, code: string, host: Host)
    requires game.Valid() && PlayerIndexOf(game.ingamePlayers, playerId) >= 0
    requires FindsCodes(host, game.board) && CodeOnBoard(game.board, code)
    requires 0 <= game.ingamePlayers[PlayerIndexOf(game.ingamePlayers, playerId)].onTile < |game.board|
    modifies game
    ensures game.Valid()
    ensures SameIds(old(game.ingamePlayers), game.ingamePlayers)
    ensures TotalMoney(game.ingamePlayers) == TotalMoney(old(game.ingamePlayers))
    ensures var k := PlayerIndexOf(old(game.ingamePlayers), playerId);
            var from := old(game.ingamePlayers)[k].onTile;
            var target := host.tileByCode(code);
            && 0 <= target < |game.board| && game.board[target].info.code == Some(code)
            && game.ingamePlayers == old(game.ingamePlayers)[k := old(game.ingamePlayers)[k].(
                 onTile := AdvanceIndex(from, host.tileDistance(from, target), |game.board|))]
            && game.calls == old(game.calls) + (if host.rentDue(playerId, target) then [HostCall.PayRent(playerId, target, None)] else [])
    ensures game.board == old(game.board)
    ensures game.currentPlayerIndex == old(game.currentPlayerIndex) && game.gameState == old(game.gameState)
  {
    var advanceToTile := host.tileByCode(code);
    var k := PlayerIndexOf(game.ingamePlayers, playerId);
    var currentTile := game.ingamePlayers[k].onTile;
    var tileDistance := host.tileDistance(currentTile, advanceToTile);
    game.AdvancePlayer(playerId, tileDistance);
    ReplaceKeepsMoney(old(game.ingamePlayers), k, game.ingamePlayers[k]);
    if host.rentDue(playerId, advanceToTile) {
      game.PayRent(playerId, advanceToTile, None);
    }
  }

  /** The indices of the tiles of kind `kind`, in board order: `board.filter(t => t.info.type == tileType)`. */
  function KindIndices(board: seq<Tile>, kind: BoardTileType): (ks: seq<int>)
    ensures forall q :: 0 <= q < |ks| ==> 0 <= ks[q] < |board| && board[ks[q]].info.tileType == Some(kind)
    ensures forall q, r :: 0 <= q < r < |ks| ==> ks[q] < ks[r]
    ensures forall i :: 0 <= i < |board| && board[i].info.tileType == Some(kind) ==> i in ks
    decreases |board|
  {
    if |board| == 0 then []
    else
      var ks := KindIndices(board[..|board| - 1], kind);
      if board[|board| - 1].info.tileType == Some(kind) then ks + [|board| - 1] else ks
  }

  /**
   * `tiles.reduce((r, t) => dist(from, r) > dist(from, t) ? t : r)` with no
   * initial value: the fold starts at the first tile and moves on only to a
   * strictly nearer one.
   */
  function ReduceClosest(ks: seq<int>, dist: (int, int) -> int, from: int): int
    requires |ks| > 0
    decreases |ks|
  {
    if |ks| == 1 then ks[0]
    else
      var r := ReduceClosest(ks[..|ks| - 1], dist, from);
      var t := ks[|ks| - 1];
      if dist(from, r) > dist(from, t) then t else r
  }

  /** The fold yields one of the tiles, at the least distance, and every tile before it is strictly farther. */
  lemma {:induction false} ReduceClosestIsLeast(ks: seq<int>, dist: (int, int) -> int, from: int)
    requires |ks| > 0
    requires forall q, r :: 0 <= q < r < |ks| ==> ks[q] < ks[r]
    ensures ReduceClosest(ks, dist, from) in ks
    ensures forall q :: 0 <= q < |ks| ==> dist(from, ReduceClosest(ks, dist, from)) <= dist(from, ks[q])
    ensures forall q :: 0 <= q < |ks| && ks[q] < ReduceClosest(ks, dist, from) ==>
              dist(from, ks[q]) > dist(from, ReduceClosest(ks, dist, from))
    decreases |ks|
  {
    if |ks| > 1 {
      var init := ks[..|ks| - 1];
      ReduceClosestIsLeast(init, dist, from);
      var r := ReduceClosest(init, dist, from);
      assert forall q :: 0 <= q < |init| ==> init[q] == ks[q];
      assert r < ks[|ks| - 1];
    }
  }

  /** The tile `advanceToClosestTileType` picks: the nearest tile of that kind, the earlier one on a tie. */
  function Closest(board: seq<Tile>, kind: BoardTileType, dist: (int, int) -> int, from: int): int
    requires KindIndexOf(board, kind) >= 0
  {
    var ks := KindIndices(board, kind);
    assert KindIndexOf(board, kind) in ks;
    ReduceClosest(ks, dist, from)
  }

  /**
   * The chosen tile has the requested kind and the least distance among the
   * tiles of that kind; every tile of that kind earlier on the board is
   * strictly farther, so ties go to the earlier tile.
   */
  lemma ClosestIsNearest(board: seq<Tile>, kind: BoardTileType, dist: (int, int) -> int, from: int)
    requires KindIndexOf(board, kind) >= 0
    ensures var c := Closest(board, kind, dist, from);
            && 0 <= c < |board| && board[c].info.tileType == Some(kind)
            && (forall j :: 0 <= j < |board| && board[j].info.tileType == Some(kind) ==> dist(from, c) <= dist(from, j))
            && (forall j :: 0 <= j < c && board[j].info.tileType == Some(kind) ==> dist(from, j) > dist(from, c))
  {
    var ks := KindIndices(board, kind);
    assert KindIndexOf(board, kind) in ks;
    ReduceClosestIsLeast(ks, dist, from);
    var c := Closest(board, kind, dist, from);
    forall j | 0 <= j < |board| && board[j].info.tileType == Some(kind)
      ensures dist(from, c) <= dist(from, j)
      ensures j < c ==> dist(from, j) > dist(from, c)
    {
      var q :| 0 <= q < |ks| && ks[q] == j;
    }
  }

  /**
   * `advanceToClosestTileType(game, player, tileType, rentMultiplier)`: the
   * player moves to the nearest tile of that kind, and rent with the
   * multiplier is paid there when it is due.
   */
  method AdvanceToClosestTileType(game: MonopolyGame, playerId: int, tileType: BoardTileType,
                                  rentMultiplier: int, host: Host)
    requires game.Valid() && PlayerIndexOf(game.ingamePlayers, playerId) >= 0
    requires KindIndexOf(game.board, tileType) >= 0
    modifies game
    ensures game.Valid() && game.board == old(game.board)
    ensures SameIds(old(game.ingamePlayers), game.ingamePlayers)
    ensures TotalMoney(game.ingamePlayers) == TotalMoney(old(game.ingamePlayers))
    ensures var k := PlayerIndexOf(old(game.ingamePlayers), playerId);
            var c := Closest(game.board, tileType, host.tileDistance, old(game.ingamePlayers)[k].onTile);
            && game.ingamePlayers == old(game.ingamePlayers)[k := old(game.ingamePlayers)[k].(onTile := c)]
            && game.calls == old(game.calls) +
                 (if host.rentDue(playerId, c) then [HostCall.PayRent(playerId, c, Some(rentMultiplier))] else [])
    ensures game.board == old(game.board)
    ensures game.currentPlayerIndex == old(game.currentPlayerIndex) && game.gameState == old(game.gameState)
  {
    var k := PlayerIndexOf(game.ingamePlayers, playerId);
    var closest := Closest(game.board, tileType, host.tileDistance, game.ingamePlayers[k].onTile);
    ClosestIsNearest(game.board, tileType, host.tileDistance, game.ingamePlayers[k].onTile);
    TileIndexOfOwnId(game.board, closest);
    game.AdvancePlayerToTile(playerId, game.board[closest]);
    ReplaceKeepsMoney(old(game.ingamePlayers), k, game.ingamePlayers[k]);
    if host.rentDue(playerId, closest) {
      game.PayRent(playerId, closest, Some(rentMultiplier));
    }
  }

  /** Go back 3 spaces: `advancePlayer(player.id, -3)`, then rent on the tile reached when it is due. */
  method GoBackThreeSpaces(game: MonopolyGame, playerId: int, host: Host)
    requires game.Valid() && PlayerIndexOf(game.ingamePlayers, playerId) >= 0
    requires var p := game.ingamePlayers[PlayerIndexOf(game.ingamePlayers, playerId)];
             0 <= AdvanceIndex(p.onTile, -3, |game.board|) < |game.board|
    modifies game
    ensures game.Valid()
    ensures SameIds(old(game.ingamePlayers), game.ingamePlayers)
    ensures TotalMoney(game.ingamePlayers) == TotalMoney(old(game.ingamePlayers))
    ensures var k := PlayerIndexOf(old(game.ingamePlayers), playerId);
            var back := AdvanceIndex(old(game.ingamePlayers)[k].onTile, -3, |game.board|);
            && game.ingamePlayers == old(game.ingamePlayers)[k := old(game.ingamePlayers)[k].(onTile := back)]
            && game.calls == old(game.calls) + (if host.rentDue(playerId, back) then [HostCall.PayRent(playerId, back, None)] else [])
    ensures game.board == old(game.board)
    ensures game.currentPlayerIndex == old(game.currentPlayerIndex) && game.gameState == old(game.gameState)
  {
    var k := PlayerIndexOf(game.ingamePlayers, playerId);
    game.AdvancePlayer(playerId, -3);
    ReplaceKeepsMoney(old(game.ingamePlayers), k, game.ingamePlayers[k]);
    var currentTile := game.ingamePlayers[k].onTile;
    if host.rentDue(playerId, currentTile) {
      game.PayRent(playerId, currentTile, None);
    }
  }

  // ----------------------------------------------------------------- effects

  /** The effect of a card, one constructor per kind of body in the decks. */
  datatype Effect =
    | ToGo                                              // advance to GO and pass it
    | ToCode(code: string)                              // advanceToAndPassGo
    | ToNearest(kind: BoardTileType, rentMultiplier: int) // advanceToClosestTileType
    | Collect(amount: int)                              // player.money += amount (negative: a charge)
    | KeepJailCard                                      // getOutOfJailCard = true
    | NoEffect                                          // an empty body
    | BackThree                                         // go back 3 spaces
    | ToJail                                            // goToJail
    | Repairs(perHouse: int, perHotel: int)             // per-building charge
    | PayEach(amount: int)                              // pay each other player

  /** What the board must hold for an effect to run: the code it jumps to, the kind it looks for, a GO_TO_JAIL tile. */
  predicate RunsOn(board: seq<Tile>, e: Effect) {
    match e
    case ToCode(code) => CodeOnBoard(board, code)
    case ToNearest(kind, _) => KindIndexOf(board, kind) >= 0
    case ToJail => KindIndexOf(board, GO_TO_JAIL) >= 0
    case _ => true
  }

  /** What the drawing player's position must allow: a tile to start from, a tile to step back onto. */
  predicate FitsPlayer(boardLength: int, p: InGamePlayer, e: Effect) {
    match e
    case ToCode(_) => 0 <= p.onTile < boardLength
    case BackThree => 0 <= AdvanceIndex(p.onTile, -3, boardLength) < boardLength
    case _ => true
  }

  /** How an effect changes the money of all players together. */
  function MoneyDelta(board: seq<Tile>, playerId: int, e: Effect): int {
    match e
    case Collect(amount) => amount
    case Repairs(perHouse, perHotel) => -RepairCost(OwnedBy(board, playerId), perHouse, perHotel)
    case _ => 0
  }

  /**
   * Calls the effect of a drawn card. Whatever the effect, the board and the
   * players' ids stay as they were, and the money of all players together
   * changes only by what the bank pays or charges.
   */
  method ApplyEffect(game: MonopolyGame, playerId: int, e: Effect, host: Host)
    requires game.Valid() && PlayerIndexOf(game.ingamePlayers, playerId) >= 0
    requires FindsCodes(host, game.board) && RunsOn(game.board, e)
    requires FitsPlayer(|game.board|, game.ingamePlayers[PlayerIndexOf(game.ingamePlayers, playerId)], e)
    modifies game
    ensures game.Valid() && game.board == old(game.board)
    ensures SameIds(old(game.ingamePlayers), game.ingamePlayers)
    ensures TotalMoney(game.ingamePlayers) == TotalMoney(old(game.ingamePlayers)) + MoneyDelta(old(game.board), playerId, e)
    ensures game.currentPlayerIndex == old(game.currentPlayerIndex) && game.gameState == old(game.gameState)
    ensures e.NoEffect? ==> game.ingamePlayers == old(game.ingamePlayers) && game.calls == old(game.calls)
    ensures e.Collect? ==>
              game.ingamePlayers == Credit(old(game.ingamePlayers), PlayerIndexOf(old(game.ingamePlayers), playerId), e.amount)
    ensures e.PayEach? ==> game.ingamePlayers == PaidEachOther(old(game.ingamePlayers), playerId, e.amount)
    ensures e.ToJail? ==>
              var k := PlayerIndexOf(old(game.ingamePlayers), playerId);
              game.ingamePlayers == old(game.ingamePlayers)[k := old(game.ingamePlayers)[k].(
                inJail := true, inJailTurns := 0, onTile := KindIndexOf(old(game.board), GO_TO_JAIL))]
  {
    match e {
      case ToGo => AdvanceToGo(game, playerId);
      case ToCode(code) => AdvanceToAndPassGo(game, playerId, code, host);
      case ToNearest(kind, rentMultiplier) => AdvanceToClosestTileType(game, playerId, kind, rentMultiplier, host);
      case Collect(amount) => CollectMoney(game, playerId, amount);
      case KeepJailCard => GrantJailCard(game, playerId);
      case NoEffect =>
      case BackThree => GoBackThreeSpaces(game, playerId, host);
      case ToJail =>
        var k := PlayerIndexOf(game.ingamePlayers, playerId);
        game.GoToJail(playerId);
        ReplaceKeepsMoney(old(game.ingamePlayers), k, game.ingamePlayers[k]);
      case Repairs(perHouse, perHotel) => ChargeRepairs(game, playerId, perHouse, perHotel);
      case PayEach(amount) => PayEachOther(game, playerId, amount);
    }
  }

  // ------------------------------------------------------------------- decks

  /** One entry of a deck table: the fields the card factory is called with. */
  datatype CardEntry = CardEntry(name: string, code: string, description: string, effect: Effect)

  /** `chanceCard({name, code, description, effect})`. */
  function ChanceOf(e: CardEntry): MonopolyCard<Effect> {
    ChanceCard(CardArgs(None, Some(e.name), Some(e.code), Some(e.description), Some(e.effect), None))
  }

  /** `commChestCard({name, code, description, effect})`. */
  function CommChestOf(e: CardEntry): MonopolyCard<Effect> {
    CommChestCard(CardArgs(None, Some(e.name), Some(e.code), Some(e.description), Some(e.effect), None))
  }

  /** The codes of the tiles the UK cards jump to. */
  const CardTargetCodes: seq<string> := ["red_03", "purple_01", "rr_01", "darkblue_02"]

  /** The entries of `ukChanceCardData`, in order. */
  const UkChanceTable: seq<CardEntry> := [
    CardEntry("Advance to GO", "adv_to_go", "Advance to GO. Collect $200.", ToGo),
    CardEntry("Advance to Trafalgar Square", "adv_to_red_03",
              "Advance to Trafalgar Square. If you pass GO, collect $200.", ToCode("red_03")),
    CardEntry("Advance to Pall Mall", "adv_to_purple_01",
              "Advance to Pall Mall. If you pass GO, collect $200.", ToCode("purple_01")),
    CardEntry("Advance to utility", "adv_to_util",
              "Advance to nearest utility. If unowned, you may buy it from the bank. If owned, throw dice and pay owner a total ten times the amount thrown.",
              ToNearest(UTILITY, 2)),
    CardEntry("Advance to railroad", "adv_to_rr",
              "Advance to nearest railroad and pay owner twice the rental to which he/she is otherwise entitled. If railroad is unowned, you may buy it from the Bank.",
              ToNearest(RAILROAD, 2)),
    CardEntry("Advance to railroad", "adv_to_rr",
              "Advance to nearest railroad and pay owner twice the rental to which he/she is otherwise entitled. If railroad is unowned, you may buy it from the Bank.",
              ToNearest(RAILROAD, 2)),
    CardEntry("Dividend payout", "rcv_dividend", "Bank owes you dividend of $50.", Collect(50)),
    CardEntry("Get out of jail free", "get_out_of_jail",
              "Get out of jail free. This card may be kept until needed, or traded/sold.", KeepJailCard),
    CardEntry("Go back 3 spaces", "go_back_3_spaces",
              "Go back 3 spaces. Do not collect $200 if you pass go.", BackThree),
    CardEntry("Go to jail", "go_to_jail",
              "Go to jail. Go directly to jail. Do not pass Go, do not collect $200.", ToJail),
    CardEntry("House repairs", "repairs",
              "Make general repairs on all your property. For each house pay $25. For each hotel pay $100.",
              Repairs(25, 100)),
    CardEntry("Poor tax", "poor_tax", "Pay Poor Tax of $15.", Collect(-15)),
    CardEntry("Trip to King's Cross Station", "rr_trip",
              "Take a trip to King's Cross Station. If you pass Go, collect $200.", ToCode("rr_01")),
    CardEntry("A walk on Mayfair", "mayfair_walk",
              "Take a walk on Mayfair. Advance token to Mayfair.", ToCode("darkblue_02")),
    CardEntry("Chairman of the board", "elected_chairman",
              "You have been elected Chairman of the Board. Pay each player $50.", PayEach(50)),
    CardEntry("Building loan matures", "loan_matures",
              "Your building loan matures. Collect $150.", Collect(150)),
    CardEntry("Crossword competition", "crossword",
              "You won a crossword competition. Collect $100.", Collect(100))
  ]

  /** The entries of `ukCommChestCardData`, in order. */
  const UkCommChestTable: seq<CardEntry> := [
    CardEntry("Advance to GO", "adv_to_go", "Advance to GO. Collect $200.", ToGo),
    CardEntry("Bank error", "bank_error", "Bank error in your favour. Collect $200.", Collect(200)),
    CardEntry("Doctor's fees", "doctors_fees", "Doctor's fees. Pay $50.", Collect(-50)),
    CardEntry("Stock sale", "stock_sale", "From sale of stock you gain $50.", Collect(50)),
    CardEntry("Get out of jail free", "get_out_of_jail",
              "Get out of jail free. This card may be kept until needed, or traded/sold.", NoEffect),
    CardEntry("Go to jail", "go_to_jail",
              "Go to jail. Go directly to jail. Do not pass Go, do not collect $200.", ToJail),
    CardEntry("Grand Opera Night", "opera_night",
              "Grand Opera Night. Collect $50 from every player for opening night seats.", PayEach(-50)),
    CardEntry("Holiday fund matures", "holiday_fund_matures",
              "Holiday fund matures. Collect $100.", Collect(100)),
    CardEntry("Income tax refund", "income_tax_refund", "Income tax refund. Collect $20.", Collect(20)),
    CardEntry("Birthday", "birthday", "Birthday. Collect $10 from every player.", PayEach(-10)),
    CardEntry("Life insurance matures", "life_insurance_matures",
              "Life insurance matures. Collect $100.", Collect(100)),
    CardEntry("Hospital fees", "hospital_fees", "Doctor's fees. Pay $50.", Collect(-50)),
    CardEntry("School fees", "school_fees", "School fees. Pay $50.", Collect(-50)),
    CardEntry("Consultancy fee", "consultancy_fee", "Receive $25 consultancy fee.", Collect(25)),
    CardEntry("Street repairs", "street_repairs",
              "You are assessed for street repairs. For each house pay $40. For each hotel pay $115.",
              Repairs(40, 115))
  ]

  /** `ukChanceCardData`: every entry made into a chance card. */
  function UkChanceCards(): seq<MonopolyCard<Effect>> {
    seq(|UkChanceTable|, i requires 0 <= i < |UkChanceTable| => ChanceOf(UkChanceTable[i]))
  }

  /** `ukCommChestCardData`: every entry made into a community-chest card. */
  function UkCommChestCards(): seq<MonopolyCard<Effect>> {
    seq(|UkCommChestTable|, i requires 0 <= i < |UkCommChestTable| => CommChestOf(UkCommChestTable[i]))
  }

  /** The effect of each entry, in order. */
  function EffectsOf(table: seq<CardEntry>): seq<Effect> {
    seq(|table|, i requires 0 <= i < |table| => table[i].effect)
  }

  /** The effects of the chance deck as listed. */
  const UkChanceEffects: seq<Effect> := [
    ToGo, ToCode("red_03"), ToCode("purple_01"), ToNearest(UTILITY, 2), ToNearest(RAILROAD, 2),
    ToNearest(RAILROAD, 2), Collect(50), KeepJailCard, BackThree, ToJail, Repairs(25, 100), Collect(-15),
    ToCode("rr_01"), ToCode("darkblue_02"), PayEach(50), Collect(150), Collect(100)]

  /** The effects of the community-chest deck as listed. */
  const UkCommChestEffects: seq<Effect> := [
    ToGo, Collect(200), Collect(-50), Collect(50), NoEffect, ToJail, PayEach(-50), Collect(100),
    Collect(20), PayEach(-10), Collect(100), Collect(-50), Collect(-50), Collect(25), Repairs(40, 115)]

  lemma UkChanceEffectsListed()
    ensures EffectsOf(UkChanceTable) == UkChanceEffects
  {
  }

  lemma UkCommChestEffectsListed()
    ensures EffectsOf(UkCommChestTable) == UkCommChestEffects
  {
  }

  /** A card made by either factory from an entry has its deck's type, is not keepable and carries the entry's fields. */
  lemma CardOfEntry(e: CardEntry)
    ensures ChanceOf(e).cardType == Some(CardType.CHANCE) && CommChestOf(e).cardType == Some(CardType.COMM_CHEST)
    ensures !ChanceOf(e).keepable && !CommChestOf(e).keepable
    ensures ChanceOf(e).effect == CommChestOf(e).effect == Some(e.effect)
    ensures ChanceOf(e).code == CommChestOf(e).code == Some(e.code)
  {
    FactoryCardTypes(CardArgs(None, Some(e.name), Some(e.code), Some(e.description), Some(e.effect), None));
  }

  /** The two UK decks: 17 chance and 15 community-chest cards, each of its deck's type, none keepable, each with its listed effect. */
  lemma UkDecks()
    ensures |UkChanceCards()| == 17 && |UkCommChestCards()| == 15
    ensures forall i :: 0 <= i < 17 ==>
              UkChanceCards()[i].cardType == Some(CardType.CHANCE) && !UkChanceCards()[i].keepable
              && UkChanceCards()[i].effect == Some(UkChanceEffects[i])
    ensures forall i :: 0 <= i < 15 ==>
              UkCommChestCards()[i].cardType == Some(CardType.COMM_CHEST) && !UkCommChestCards()[i].keepable
              && UkCommChestCards()[i].effect == Some(UkCommChestEffects[i])
  {
    UkChanceEffectsListed();
    UkCommChestEffectsListed();
    forall i | 0 <= i < 17
      ensures UkChanceCards()[i].cardType == Some(CardType.CHANCE) && !UkChanceCards()[i].keepable
              && UkChanceCards()[i].effect == Some(UkChanceEffects[i])
    {
      CardOfEntry(UkChanceTable[i]);
      assert UkChanceEffects[i] == EffectsOf(UkChanceTable)[i];
    }
    forall i | 0 <= i < 15
      ensures UkCommChestCards()[i].cardType == Some(CardType.COMM_CHEST) && !UkCommChestCards()[i].keepable
              && UkCommChestCards()[i].effect == Some(UkCommChestEffects[i])
    {
      CardOfEntry(UkCommChestTable[i]);
      assert UkCommChestEffects[i] == EffectsOf(UkCommChestTable)[i];
    }
  }

  /** A code listed at `square` in a code column that matches the board is on the board. */
  lemma CodeOnBoardAt(board: seq<Tile>, codes: seq<Option<string>>, square: int, code: string)
    requires |board| == |codes| && 0 <= square < |codes| && codes[square] == Some(code)
    requires forall i :: 0 <= i < |board| ==> board[i].info.code == codes[i]
    ensures CodeOnBoard(board, code)
  {
    assert board[square].info.code == Some(code);
  }

  /** A kind listed at `square` in a kind column that matches the board is found by KindIndexOf. */
  lemma KindOnBoardAt(board: seq<Tile>, kinds: seq<Option<BoardTileType>>, square: int, kind: BoardTileType)
    requires |board| == |kinds| && 0 <= square < |kinds| && kinds[square] == Some(kind)
    requires forall i :: 0 <= i < |board| ==> board[i].info.tileType == kinds[i]
    ensures KindIndexOf(board, kind) >= 0
  {
    assert board[square].info.tileType == Some(kind);
  }

  /** The codes of the UK board's records are the codes of the UK tiles. */
  lemma UkBoardCodes()
    ensures |BoardOf(UkTileData())| == |Codes(UkTiles())| == 40
    ensures forall i :: 0 <= i < 40 ==> BoardOf(UkTileData())[i].info.code == Codes(UkTiles())[i]
  {
    UkBoard();
  }

  /** A code the UK tiles list at `square` is on the UK board. */
  lemma UkCodeOnBoard(code: string, square: int)
    requires 0 <= square < |Codes(UkTiles())| && Codes(UkTiles())[square] == Some(code)
    ensures CodeOnBoard(BoardOf(UkTileData()), code)
  {
    UkBoardCodes();
    CodeOnBoardAt(BoardOf(UkTileData()), Codes(UkTiles()), square, code);
  }

  /** Every code a UK card jumps to is on the UK board. */
  lemma UkTargetCodesOnBoard()
    ensures forall c :: c in CardTargetCodes ==> CodeOnBoard(BoardOf(UkTileData()), c)
  {
    UkCardTargets();
    UkCodeOnBoard("red_03", 24);
    UkCodeOnBoard("purple_01", 11);
    UkCodeOnBoard("rr_01", 5);
    UkCodeOnBoard("darkblue_02", 39);
  }

  /** The UK board has utilities, railroads and a GO_TO_JAIL tile, at square 30. */
  lemma UkTargetKindsOnBoard()
    ensures KindIndexOf(BoardOf(UkTileData()), UTILITY) >= 0
    ensures KindIndexOf(BoardOf(UkTileData()), RAILROAD) >= 0
    ensures KindIndexOf(BoardOf(UkTileData()), GO_TO_JAIL) == 30
  {
    UkBoardKinds();
    UkKinds();
    UkKindIndex(GO_TO_JAIL, 30);
    var b, kinds := BoardOf(UkTileData()), Kinds(UkTiles());
    assert 12 in UtilitySquares && 5 in RailroadSquares;
    KindOnBoardAt(b, kinds, 12, UTILITY);
    KindOnBoardAt(b, kinds, 5, RAILROAD);
  }

  /** Every effect of a deck whose jumps, kinds and jail tile the board provides can run on that board. */
  lemma EffectsRunOn(board: seq<Tile>, effects: seq<Effect>)
    requires forall c :: c in CardTargetCodes ==> CodeOnBoard(board, c)
    requires KindIndexOf(board, UTILITY) >= 0 && KindIndexOf(board, RAILROAD) >= 0
    requires KindIndexOf(board, GO_TO_JAIL) >= 0
    requires effects == UkChanceEffects || effects == UkCommChestEffects
    ensures forall i :: 0 <= i < |effects| ==> RunsOn(board, effects[i])
  {
  }

  /** Every effect in the UK decks can run on the UK board. */
  lemma UkCardEffectsRun()
    ensures forall i :: 0 <= i < 17 ==> RunsOn(BoardOf(UkTileData()), UkChanceEffects[i])
    ensures forall i :: 0 <= i < 15 ==> RunsOn(BoardOf(UkTileData()), UkCommChestEffects[i])
  {
    UkTargetCodesOnBoard();
    UkTargetKindsOnBoard();
    EffectsRunOn(BoardOf(UkTileData()), UkChanceEffects);
    EffectsRunOn(BoardOf(UkTileData()), UkCommChestEffects);
  }

  /** When the tiles of a kind are exactly `squares`, the tile strictly nearest among them is the one picked. */
  lemma ClosestAmong(board: seq<Tile>, kind: BoardTileType, dist: (int, int) -> int, from: int, squares: set<int>, c: int)
    requires forall i :: 0 <= i < |board| ==> (board[i].info.tileType == Some(kind) <==> i in squares)
    requires 0 <= c < |board| && c in squares
    requires forall j :: j in squares && j != c ==> dist(from, j) > dist(from, c)
    ensures KindIndexOf(board, kind) >= 0
    ensures Closest(board, kind, dist, from) == c
  {
    assert board[c].info.tileType == Some(kind);
    ClosestIsNearest(board, kind, dist, from);
  }

  /** The UK board's utilities and railroads are exactly the squares listed for them. */
  lemma UkUtilityRailroadSquares()
    ensures |BoardOf(UkTileData())| == 40
    ensures forall i :: 0 <= i < 40 ==> (BoardOf(UkTileData())[i].info.tileType == Some(UTILITY) <==> i in UtilitySquares)
    ensures forall i :: 0 <= i < 40 ==> (BoardOf(UkTileData())[i].info.tileType == Some(RAILROAD) <==> i in RailroadSquares)
  {
    UkBoardKinds();
    UkKinds();
  }

  /** A forty-square board whose tiles of `kind` are exactly `squares`, with forward distances: the nearest ahead of `from` is picked. */
  lemma ClosestAhead(board: seq<Tile>, host: Host, kind: BoardTileType, squares: set<int>, from: int, c: int)
    requires |board| == 40 && ForwardDistances(host, 40)
    requires forall i :: 0 <= i < 40 ==> (board[i].info.tileType == Some(kind) <==> i in squares)
    requires 0 <= from < 40 && 0 <= c < 40 && c in squares
    requires forall j :: j in squares && j != c ==> 0 <= j < 40 && (j - from) % 40 > (c - from) % 40
    ensures KindIndexOf(board, kind) >= 0
    ensures Closest(board, kind, host.tileDistance, from) == c
  {
    ClosestAmong(board, kind, host.tileDistance, from, squares, c);
  }

  /** The UK chance squares. */
  const UkChanceSquares: set<int> := {7, 22, 36}

  /**
   * With forward distances, the nearest-utility card drawn on a chance square
   * of a board laid out like the UK one (see `UkUtilityRailroadSquares`)
   * picks Electric Company (12) from 7 and from 36, past GO, and Water Works
   * (28) from 22.
   */
  lemma UkNearestUtility(board: seq<Tile>, host: Host, from: int)
    requires |board| == 40 && ForwardDistances(host, 40)
    requires forall i :: 0 <= i < 40 ==> (board[i].info.tileType == Some(UTILITY) <==> i in UtilitySquares)
    requires from in UkChanceSquares
    ensures KindIndexOf(board, UTILITY) >= 0
    ensures Closest(board, UTILITY, host.tileDistance, from) == if from == 22 then 28 else 12
  {
    if from == 7 {
      ClosestAhead(board, host, UTILITY, UtilitySquares, 7, 12);
    } else if from == 22 {
      ClosestAhead(board, host, UTILITY, UtilitySquares, 22, 28);
    } else {
      ClosestAhead(board, host, UTILITY, UtilitySquares, 36, 12);
    }
  }

  /**
   * With forward distances, the nearest-railroad card drawn on a chance
   * square of a board laid out like the UK one picks the next station ahead:
   * 15 from 7, 25 from 22 and, past GO, 5 from 36.
   */
  lemma UkNearestRailroad(board: seq<Tile>, host: Host, from: int)
    requires |board| == 40 && ForwardDistances(host, 40)
    requires forall i :: 0 <= i < 40 ==> (board[i].info.tileType == Some(RAILROAD) <==> i in RailroadSquares)
    requires from in UkChanceSquares
    ensures KindIndexOf(board, RAILROAD) >= 0
    ensures Closest(board, RAILROAD, host.tileDistance, from) == if from == 7 then 15 else if from == 22 then 25 else 5
  {
    assert RailroadSquares == {5, 15, 25, 35};
    if from == 7 {
      ClosestAhead(board, host, RAILROAD, RailroadSquares, 7, 15);
    } else if from == 22 {
      ClosestAhead(board, host, RAILROAD, RailroadSquares, 22, 25);
    } else {
      ClosestAhead(board, host, RAILROAD, RailroadSquares, 36, 5);
    }
  }

  /**
   * Advance to Trafalgar Square (red_03, square 24) on the UK board, with
   * forward distances: drawn on square 7 the player lands on 24; drawn on
   * square 36 the forward distance is 28 and `advancePlayer` leaves the
   * player at 64, past the end of the board.
   */
  lemma UkAdvanceToTrafalgar(host: Host)
    requires ForwardDistances(host, 40) && FindsCodes(host, BoardOf(UkTileData()))
    ensures host.tileByCode("red_03") == 24
    ensures AdvanceIndex(7, host.tileDistance(7, host.tileByCode("red_03")), 40) == 24
    ensures AdvanceIndex(36, host.tileDistance(36, host.tileByCode("red_03")), 40) == 64
  {
    var b := BoardOf(UkTileData());
    UkBoardCodes();
    UkCardTargets();
    assert b[24].info.code == Some("red_03");
    var t := host.tileByCode("red_03");
    assert 0 <= t < 40 && b[t].info.code == Some("red_03");
  }
}
