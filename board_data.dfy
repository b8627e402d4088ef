/**
 * The UK board table (monopoly/core/BoardData.js): four rows of ten tile
 * templates, read row by row from GO, and the facts about its shape that the
 * game engine and the cards rely on.
 */
module BoardData {
  import opened Wrappers
  import opened BoardTiles

  /** A street: `PropertyTile` with a rent table keyed '0'..'4' and 'h'. */
  function Street(name: string, code: string, color: PropertyColor, price: int, houseCost: int,
                  mortgageValue: int, r0: int, r1: int, r2: int, r3: int, r4: int, rh: int): BoardTile
  {
    MakeTile(PropertyTile, NoArgs.(
      name := Some(name), code := Some(code), color := Some(color), price := Some(price),
      houseCost := Some(houseCost), mortgageValue := Some(mortgageValue),
      rent := Some(map["0" := r0, "1" := r1, "2" := r2, "3" := r3, "4" := r4, "h" := rh])))
  }

  /** A station: `RailroadTile`, price 200, mortgage 100, rent keyed by stations owned. */
  function Station(name: string, code: string): BoardTile
  {
    MakeTile(RailroadTile, NoArgs.(
      name := Some(name), code := Some(code), price := Some(200), mortgageValue := Some(100),
      rent := Some(RailroadRent)))
  }

  const RailroadRent: RentTable := map["1r" := 25, "2r" := 50, "3r" := 100, "4r" := 200]

  /** A utility: `UtilityTile`, price 150, mortgage 75, no rent table. */
  function Utility(name: string, code: string): BoardTile
  {
    MakeTile(UtilityTile, NoArgs.(
      name := Some(name), code := Some(code), price := Some(150), mortgageValue := Some(75)))
  }

  /** A tile built from nothing but its code, with the factory's default name. */
  function Plain(f: TileFactory, code: string): BoardTile
  {
    MakeTile(f, NoArgs.(code := Some(code)))
  }

  function Row0(): seq<BoardTile> {
    [ Plain(GoTile, "go"),
      Street("Old Kent Road", "brown_01", BROWN, 60, 30, 50, 2, 10, 30, 90, 160, 250),
      Plain(CommChestTile, "commchest_01"),
      Street("Whitechapel Road", "brown_02", BROWN, 60, 30, 50, 4, 20, 60, 180, 360, 450),
      Plain(IncomeTaxTile, "incometax_01"),
      Station("Kings Cross Station", "rr_01"),
      Street("The Angel Islington", "lightblue_01", LIGHT_BLUE, 100, 50, 50, 6, 30, 90, 270, 400, 550),
      Plain(ChanceTile, "chance_01"),
      Street("Euston Road", "lightblue_02", LIGHT_BLUE, 100, 50, 50, 6, 30, 90, 270, 400, 550),
      Street("Pentonville Road", "lightblue_03", LIGHT_BLUE, 120, 60, 60, 8, 40, 100, 300, 450, 600) ]
  }

  function Row1(): seq<BoardTile> {
    [ Plain(JailTile, "jail"),
      Street("Pall Mall", "purple_01", PURPLE, 140, 100, 70, 10, 50, 150, 450, 625, 750),
      Utility("Electric Company", "util_01"),
      Street("Whitehall", "purple_02", PURPLE, 140, 100, 70, 10, 50, 150, 450, 625, 750),
      Street("Northumberland Avenue", "purple_03", PURPLE, 160, 100, 80, 12, 60, 180, 500, 700, 900),
      Station("Marylebone Station", "rr_02"),
      Street("Bow Street", "orange_01", ORANGE, 180, 100, 90, 14, 70, 200, 550, 750, 950),
      Plain(CommChestTile, "commchest_02"),
      Street("Marlborough Street", "orange_02", ORANGE, 180, 100, 90, 14, 70, 200, 550, 750, 950),
      Street("Vine Street", "orange_03", ORANGE, 200, 100, 100, 16, 80, 220, 600, 800, 1000) ]
  }

  function Row2(): seq<BoardTile> {
    [ Plain(FreeParkingTile, "freeparking"),
      Street("The Strand", "red_01", RED, 220, 150, 110, 18, 90, 250, 700, 870, 1050),
      Plain(ChanceTile, "chance_02"),
      Street("Fleet Street", "red_02", RED, 220, 150, 110, 18, 90, 250, 700, 870, 1050),
      Street("Trafalgar Square", "red_03", RED, 240, 150, 120, 20, 100, 300, 750, 925, 1100),
      Station("Fenchurch St. Station", "rr_03"),
      Street("Leicester Square", "yellow_01", YELLOW, 260, 150, 150, 22, 110, 330, 800, 975, 1150),
      Street("Coventry Street", "yellow_02", YELLOW, 260, 150, 150, 22, 110, 330, 800, 975, 1150),
      Utility("Water Works", "util_02"),
      Street("Piccadilly", "yellow_03", YELLOW, 280, 140, 150, 24, 120, 360, 850, 1025, 1200) ]
  }

  function Row3(): seq<BoardTile> {
    [ Plain(GoToJailTile, "gotojail"),
      Street("Regent Street", "green_01", GREEN, 300, 150, 200, 26, 130, 390, 900, 1100, 1275),
      Street("Oxford Street", "green_02", GREEN, 300, 150, 200, 26, 130, 390, 900, 1100, 1275),
      Plain(CommChestTile, "commchest_03"),
      Street("Bond Street", "green_03", GREEN, 320, 160, 200, 28, 150, 450, 1000, 1200, 1400),
      Station("Liverpool St. Station", "rr_04"),
      Plain(ChanceTile, "chance_03"),
      Street("Park Lane", "darkblue_01", DARK_BLUE, 350, 200, 175, 35, 175, 500, 1100, 1300, 1500),
      Plain(SuperTaxTile, "supertax_01"),
      Street("Mayfair", "darkblue_02", DARK_BLUE, 400, 200, 200, 50, 200, 600, 1400, 1700, 2000) ]
  }

  /** `ukTileData`: the board as four rows of ten. */
  function UkTileData(): seq<seq<BoardTile>> {
    [Row0(), Row1(), Row2(), Row3()]
  }

  /** The rows read one after another: the order the engine lays the board out in. */
  function Flatten(rows: seq<seq<BoardTile>>): seq<BoardTile> {
    if |rows| == 0 then [] else rows[0] + Flatten(rows[1..])
  }

  /** The forty UK tiles in board order. */
  function UkTiles(): seq<BoardTile> {
    Flatten(UkTileData())
  }

  /** Reading rows of ten one after another puts row r, column s at 10 * r + s. */
  lemma {:induction false} FlattenAt(rows: seq<seq<BoardTile>>, r: nat, s: nat)
    requires forall k :: 0 <= k < |rows| ==> |rows[k]| == 10
    requires r < |rows| && s < 10
    ensures |Flatten(rows)| == 10 * |rows|
    ensures Flatten(rows)[10 * r + s] == rows[r][s]
  {
    if r == 0 {
      FlattenLength(rows[1..]);
    } else {
      FlattenAt(rows[1..], r - 1, s);
    }
  }

  lemma {:induction false} FlattenLength(rows: seq<seq<BoardTile>>)
    requires forall k :: 0 <= k < |rows| ==> |rows[k]| == 10
    ensures |Flatten(rows)| == 10 * |rows|
  {
    if |rows| > 0 {
      FlattenLength(rows[1..]);
    }
  }

  /** The table has four rows of ten; tile 10 * r + s of the board is column s of row r. */
  lemma UkTileDataShape()
    ensures |UkTileData()| == 4
    ensures forall r :: 0 <= r < 4 ==> |UkTileData()[r]| == 10
    ensures |UkTiles()| == 40
    ensures forall r, s :: 0 <= r < 4 && 0 <= s < 10 ==> UkTiles()[10 * r + s] == UkTileData()[r][s]
  {
    var rows := UkTileData();
    assert forall r :: 0 <= r < 4 ==> |rows[r]| == 10 by {
      assert |Row0()| == 10 && |Row1()| == 10 && |Row2()| == 10 && |Row3()| == 10;
    }
    forall r, s | 0 <= r < 4 && 0 <= s < 10
      ensures UkTiles()[10 * r + s] == rows[r][s]
    {
      FlattenAt(rows, r, s);
    }
  }

  /** The kind of each tile, in order. */
  function Kinds(ts: seq<BoardTile>): seq<Option<BoardTileType>> {
    seq(|ts|, i requires 0 <= i < |ts| => ts[i].tileType)
  }

  /** The colour of each tile, in order (only streets have one). */
  function Colors(ts: seq<BoardTile>): seq<Option<PropertyColor>> {
    seq(|ts|, i requires 0 <= i < |ts| => ts[i].color)
  }

  /** The code of each tile, in order. */
  function Codes(ts: seq<BoardTile>): seq<Option<string>> {
    seq(|ts|, i requires 0 <= i < |ts| => ts[i].code)
  }

  lemma ColumnsAppend(a: seq<BoardTile>, b: seq<BoardTile>)
    ensures Kinds(a + b) == Kinds(a) + Kinds(b)
    ensures Colors(a + b) == Colors(a) + Colors(b)
    ensures Codes(a + b) == Codes(a) + Codes(b)
  {
  }

  /** Flattening the four rows of the table lays them end to end. */
  lemma UkTilesRows()
    ensures UkTiles() == Row0() + Row1() + Row2() + Row3()
  {
    var rows := UkTileData();
    assert rows[1..][1..][1..][1..] == [];
  }

  /** Each column of the board is the four row columns end to end. */
  lemma UkColumns()
    ensures |UkTiles()| == 40
    ensures Kinds(UkTiles()) == Kinds(Row0()) + Kinds(Row1()) + Kinds(Row2()) + Kinds(Row3())
    ensures Colors(UkTiles()) == Colors(Row0()) + Colors(Row1()) + Colors(Row2()) + Colors(Row3())
    ensures Codes(UkTiles()) == Codes(Row0()) + Codes(Row1()) + Codes(Row2()) + Codes(Row3())
  {
    UkTilesRows();
    ColumnsAppend(Row0(), Row1());
    ColumnsAppend(Row0() + Row1(), Row2());
    ColumnsAppend(Row0() + Row1() + Row2(), Row3());
  }

  /*
   * The columns of the table as listed, row by row. Each is checked against the
   * table itself by one lemma per row below; the facts about the whole board are
   * then drawn from these lists alone (the solver handles short literal lists
   * far more cheaply than the table of constructor calls).
   */

  const KindColumn0: seq<Option<BoardTileType>> := [Some(GO), Some(PROPERTY), Some(COMM_CHEST), Some(PROPERTY), Some(INCOME_TAX), Some(RAILROAD), Some(PROPERTY), Some(CHANCE), Some(PROPERTY), Some(PROPERTY)]
  const ColorColumn0: seq<Option<PropertyColor>> := [None, Some(BROWN), None, Some(BROWN), None, None, Some(LIGHT_BLUE), None, Some(LIGHT_BLUE), Some(LIGHT_BLUE)]
  const CodeColumn0: seq<Option<string>> := [Some("go"), Some("brown_01"), Some("commchest_01"), Some("brown_02"), Some("incometax_01"), Some("rr_01"), Some("lightblue_01"), Some("chance_01"), Some("lightblue_02"), Some("lightblue_03")]

  const KindColumn1: seq<Option<BoardTileType>> := [Some(JAIL), Some(PROPERTY), Some(UTILITY), Some(PROPERTY), Some(PROPERTY), Some(RAILROAD), Some(PROPERTY), Some(COMM_CHEST), Some(PROPERTY), Some(PROPERTY)]
  const ColorColumn1: seq<Option<PropertyColor>> := [None, Some(PURPLE), None, Some(PURPLE), Some(PURPLE), None, Some(ORANGE), None, Some(ORANGE), Some(ORANGE)]
  const CodeColumn1: seq<Option<string>> := [Some("jail"), Some("purple_01"), Some("util_01"), Some("purple_02"), Some("purple_03"), Some("rr_02"), Some("orange_01"), Some("commchest_02"), Some("orange_02"), Some("orange_03")]

  const KindColumn2: seq<Option<BoardTileType>> := [Some(FREE_PARKING), Some(PROPERTY), Some(CHANCE), Some(PROPERTY), Some(PROPERTY), Some(RAILROAD), Some(PROPERTY), Some(PROPERTY), Some(UTILITY), Some(PROPERTY)]
  const ColorColumn2: seq<Option<PropertyColor>> := [None, Some(RED), None, Some(RED), Some(RED), None, Some(YELLOW), Some(YELLOW), None, Some(YELLOW)]
  const CodeColumn2: seq<Option<string>> := [Some("freeparking"), Some("red_01"), Some("chance_02"), Some("red_02"), Some("red_03"), Some("rr_03"), Some("yellow_01"), Some("yellow_02"), Some("util_02"), Some("yellow_03")]

  const KindColumn3: seq<Option<BoardTileType>> := [Some(GO_TO_JAIL), Some(PROPERTY), Some(PROPERTY), Some(COMM_CHEST), Some(PROPERTY), Some(RAILROAD), Some(CHANCE), Some(PROPERTY), Some(SUPER_TAX), Some(PROPERTY)]
  const ColorColumn3: seq<Option<PropertyColor>> := [None, Some(GREEN), Some(GREEN), None, Some(GREEN), None, None, Some(DARK_BLUE), None, Some(DARK_BLUE)]
  const CodeColumn3: seq<Option<string>> := [Some("gotojail"), Some("green_01"), Some("green_02"), Some("commchest_03"), Some("green_03"), Some("rr_04"), Some("chance_03"), Some("darkblue_01"), Some("supertax_01"), Some("darkblue_02")]

  lemma Row0Columns()
    ensures Kinds(Row0()) == KindColumn0
    ensures Colors(Row0()) == ColorColumn0
    ensures Codes(Row0()) == CodeColumn0
  {
  }

  lemma Row1Columns()
    ensures Kinds(Row1()) == KindColumn1
    ensures Colors(Row1()) == ColorColumn1
    ensures Codes(Row1()) == CodeColumn1
  {
  }

  lemma Row2Columns()
    ensures Kinds(Row2()) == KindColumn2
    ensures Colors(Row2()) == ColorColumn2
    ensures Codes(Row2()) == CodeColumn2
  {
  }

  lemma Row3Columns()
    ensures Kinds(Row3()) == KindColumn3
    ensures Colors(Row3()) == ColorColumn3
    ensures Codes(Row3()) == CodeColumn3
  {
  }

  /** Where the corner kinds sit in a kind column laid out as the UK table. */
  lemma CornerColumnFacts(ks: seq<Option<BoardTileType>>, k0: seq<Option<BoardTileType>>, k1: seq<Option<BoardTileType>>,
                          k2: seq<Option<BoardTileType>>, k3: seq<Option<BoardTileType>>)
    requires k0 == KindColumn0 && k1 == KindColumn1 && k2 == KindColumn2 && k3 == KindColumn3
    requires ks == k0 + k1 + k2 + k3
    ensures |ks| == 40
    ensures forall i :: 0 <= i < 40 ==> (ks[i] == Some(GO) <==> i == 0)
    ensures forall i :: 0 <= i < 40 ==> (ks[i] == Some(JAIL) <==> i == 10)
    ensures forall i :: 0 <= i < 40 ==> (ks[i] == Some(FREE_PARKING) <==> i == 20)
    ensures forall i :: 0 <= i < 40 ==> (ks[i] == Some(GO_TO_JAIL) <==> i == 30)
  {
  }

  /** Where the railroads and utilities sit in a kind column laid out as the UK table. */
  lemma StationColumnFacts(ks: seq<Option<BoardTileType>>, k0: seq<Option<BoardTileType>>, k1: seq<Option<BoardTileType>>,
                          k2: seq<Option<BoardTileType>>, k3: seq<Option<BoardTileType>>)
    requires k0 == KindColumn0 && k1 == KindColumn1 && k2 == KindColumn2 && k3 == KindColumn3
    requires ks == k0 + k1 + k2 + k3
    ensures |ks| == 40
    ensures forall i :: 0 <= i < 40 ==> (ks[i] == Some(RAILROAD) <==> i in RailroadSquares)
    ensures forall i :: 0 <= i < 40 ==> (ks[i] == Some(UTILITY) <==> i in UtilitySquares)
  {
  }

  /** Where the streets sit in the first two rows of a kind column laid out as the UK table. */
  lemma StreetColumnFactsLow(ks: seq<Option<BoardTileType>>, k0: seq<Option<BoardTileType>>, k1: seq<Option<BoardTileType>>,
                          k2: seq<Option<BoardTileType>>, k3: seq<Option<BoardTileType>>)
    requires k0 == KindColumn0 && k1 == KindColumn1 && k2 == KindColumn2 && k3 == KindColumn3
    requires ks == k0 + k1 + k2 + k3
    ensures |ks| == 40
    ensures forall i :: 0 <= i < 20 ==> (ks[i] == Some(PROPERTY) <==> i in StreetSquares)
  {
  }

  /** Where the streets sit in the last two rows of a kind column laid out as the UK table. */
  lemma StreetColumnFactsHigh(ks: seq<Option<BoardTileType>>, k0: seq<Option<BoardTileType>>, k1: seq<Option<BoardTileType>>,
                          k2: seq<Option<BoardTileType>>, k3: seq<Option<BoardTileType>>)
    requires k0 == KindColumn0 && k1 == KindColumn1 && k2 == KindColumn2 && k3 == KindColumn3
    requires ks == k0 + k1 + k2 + k3
    ensures |ks| == 40
    ensures forall i :: 20 <= i < 40 ==> (ks[i] == Some(PROPERTY) <==> i in StreetSquares)
  {
  }

  /** The squares of the railroads, the utilities and (in increasing order) the streets. */
  const RailroadSquares: set<int> := {5, 15, 25, 35}
  const UtilitySquares: set<int> := {12, 28}
  const StreetSquares: seq<int> := [1, 3, 6, 8, 9, 11, 13, 14, 16, 18, 19, 21, 23, 24, 26, 27, 29, 31, 32, 34, 37, 39]

  lemma StationSquareCounts()
    ensures |RailroadSquares| == 4 && |UtilitySquares| == 2
  {
  }

  lemma StreetSquareCount()
    ensures |StreetSquares| == 22
    ensures forall i, j :: 0 <= i < j < |StreetSquares| ==> StreetSquares[i] < StreetSquares[j]
  {
  }

  /**
   * GO, JAIL, FREE_PARKING and GO_TO_JAIL each occur once, on the corners 0,
   * 10, 20 and 30 (so a first-match lookup by one of these kinds is
   * unambiguous); the four railroads, two utilities and 22 streets sit on the
   * listed squares.
   */
  lemma UkKinds()
    ensures |UkTiles()| == 40
    ensures |RailroadSquares| == 4 && |UtilitySquares| == 2 && |StreetSquares| == 22
    ensures forall i :: 0 <= i < 40 ==> (Kinds(UkTiles())[i] == Some(GO) <==> i == 0)
    ensures forall i :: 0 <= i < 40 ==> (Kinds(UkTiles())[i] == Some(JAIL) <==> i == 10)
    ensures forall i :: 0 <= i < 40 ==> (Kinds(UkTiles())[i] == Some(FREE_PARKING) <==> i == 20)
    ensures forall i :: 0 <= i < 40 ==> (Kinds(UkTiles())[i] == Some(GO_TO_JAIL) <==> i == 30)
    ensures forall i :: 0 <= i < 40 ==> (Kinds(UkTiles())[i] == Some(RAILROAD) <==> i in RailroadSquares)
    ensures forall i :: 0 <= i < 40 ==> (Kinds(UkTiles())[i] == Some(UTILITY) <==> i in UtilitySquares)
    ensures forall i :: 0 <= i < 40 ==> (Kinds(UkTiles())[i] == Some(PROPERTY) <==> i in StreetSquares)
  {
    UkColumns();
    Row0Columns(); Row1Columns(); Row2Columns(); Row3Columns();
    CornerColumnFacts(Kinds(UkTiles()), Kinds(Row0()), Kinds(Row1()), Kinds(Row2()), Kinds(Row3()));
    StationColumnFacts(Kinds(UkTiles()), Kinds(Row0()), Kinds(Row1()), Kinds(Row2()), Kinds(Row3()));
    StreetColumnFactsLow(Kinds(UkTiles()), Kinds(Row0()), Kinds(Row1()), Kinds(Row2()), Kinds(Row3()));
    StreetColumnFactsHigh(Kinds(UkTiles()), Kinds(Row0()), Kinds(Row1()), Kinds(Row2()), Kinds(Row3()));
    StationSquareCounts();
    StreetSquareCount();
  }

  /** The squares of each colour group on the UK board. */
  function GroupSquares(c: PropertyColor): set<int> {
    match c
    case BROWN => {1, 3}
    case LIGHT_BLUE => {6, 8, 9}
    case PURPLE => {11, 13, 14}
    case ORANGE => {16, 18, 19}
    case RED => {21, 23, 24}
    case YELLOW => {26, 27, 29}
    case GREEN => {31, 32, 34}
    case DARK_BLUE => {37, 39}
  }

  lemma GroupSizes()
    ensures forall c :: |GroupSquares(c)| == if c == BROWN || c == DARK_BLUE then 2 else 3
  {
  }

  lemma ColorColumnFactsLow(cs: seq<Option<PropertyColor>>, c0: seq<Option<PropertyColor>>, c1: seq<Option<PropertyColor>>,
                            c2: seq<Option<PropertyColor>>, c3: seq<Option<PropertyColor>>)
    requires c0 == ColorColumn0 && c1 == ColorColumn1 && c2 == ColorColumn2 && c3 == ColorColumn3
    requires cs == c0 + c1 + c2 + c3
    ensures |cs| == 40
    ensures forall i, c :: 0 <= i < 20 ==> (cs[i] == Some(c) <==> i in GroupSquares(c))
  {
  }

  lemma ColorColumnFactsHigh(cs: seq<Option<PropertyColor>>, c0: seq<Option<PropertyColor>>, c1: seq<Option<PropertyColor>>,
                             c2: seq<Option<PropertyColor>>, c3: seq<Option<PropertyColor>>)
    requires c0 == ColorColumn0 && c1 == ColorColumn1 && c2 == ColorColumn2 && c3 == ColorColumn3
    requires cs == c0 + c1 + c2 + c3
    ensures |cs| == 40
    ensures forall i, c :: 20 <= i < 40 ==> (cs[i] == Some(c) <==> i in GroupSquares(c))
  {
  }

  lemma ColoredColumnFacts(cs: seq<Option<PropertyColor>>, c0: seq<Option<PropertyColor>>, c1: seq<Option<PropertyColor>>,
                           c2: seq<Option<PropertyColor>>, c3: seq<Option<PropertyColor>>,
                           ks: seq<Option<BoardTileType>>, k0: seq<Option<BoardTileType>>, k1: seq<Option<BoardTileType>>,
                           k2: seq<Option<BoardTileType>>, k3: seq<Option<BoardTileType>>)
    requires c0 == ColorColumn0 && c1 == ColorColumn1 && c2 == ColorColumn2 && c3 == ColorColumn3
    requires k0 == KindColumn0 && k1 == KindColumn1 && k2 == KindColumn2 && k3 == KindColumn3
    requires cs == c0 + c1 + c2 + c3 && ks == k0 + k1 + k2 + k3
    ensures |cs| == |ks| == 40
    ensures forall i :: 0 <= i < 40 ==> (cs[i].Some? <==> ks[i] == Some(PROPERTY))
  {
  }

  predicate Distinct<T(==)>(s: seq<T>) {
    forall i, j :: 0 <= i < j < |s| ==> s[i] != s[j]
  }

  lemma DistinctAppend<T>(a: seq<T>, b: seq<T>)
    requires Distinct(a) && Distinct(b)
    requires forall i, j :: 0 <= i < |a| && 0 <= j < |b| ==> a[i] != b[j]
    ensures Distinct(a + b)
  {
  }

  lemma CodeRowsDistinct(d0: seq<Option<string>>, d1: seq<Option<string>>, d2: seq<Option<string>>, d3: seq<Option<string>>)
    requires d0 == CodeColumn0 && d1 == CodeColumn1 && d2 == CodeColumn2 && d3 == CodeColumn3
    ensures Distinct(d0) && Distinct(d1) && Distinct(d2) && Distinct(d3)
  {
  }

  lemma CodeRowsApart(a: seq<Option<string>>, b: seq<Option<string>>)
    requires (a == CodeColumn0 && (b == CodeColumn1 || b == CodeColumn2 || b == CodeColumn3))
          || (a == CodeColumn1 && (b == CodeColumn2 || b == CodeColumn3))
          || (a == CodeColumn2 && b == CodeColumn3)
    ensures forall i, j :: 0 <= i < |a| && 0 <= j < |b| ==> a[i] != b[j]
  {
  }

  lemma CodeColumnFacts(ds: seq<Option<string>>, d0: seq<Option<string>>, d1: seq<Option<string>>,
                        d2: seq<Option<string>>, d3: seq<Option<string>>)
    requires d0 == CodeColumn0 && d1 == CodeColumn1 && d2 == CodeColumn2 && d3 == CodeColumn3
    requires ds == d0 + d1 + d2 + d3
    ensures |ds| == 40
    ensures forall i :: 0 <= i < 40 ==> ds[i].Some?
    ensures ds[24] == Some("red_03") && ds[11] == Some("purple_01")
    ensures ds[5] == Some("rr_01") && ds[39] == Some("darkblue_02")
  {
  }

  lemma DistinctConcat4<T>(a: seq<T>, b: seq<T>, c: seq<T>, d: seq<T>)
    requires Distinct(a) && Distinct(b) && Distinct(c) && Distinct(d)
    requires forall i, j :: 0 <= i < |a| && 0 <= j < |b| ==> a[i] != b[j]
    requires forall i, j :: 0 <= i < |a| && 0 <= j < |c| ==> a[i] != c[j]
    requires forall i, j :: 0 <= i < |a| && 0 <= j < |d| ==> a[i] != d[j]
    requires forall i, j :: 0 <= i < |b| && 0 <= j < |c| ==> b[i] != c[j]
    requires forall i, j :: 0 <= i < |b| && 0 <= j < |d| ==> b[i] != d[j]
    requires forall i, j :: 0 <= i < |c| && 0 <= j < |d| ==> c[i] != d[j]
    ensures Distinct(a + b + c + d)
  {
    DistinctAppend(a, b);
    DistinctAppend(a + b, c);
    DistinctAppend(a + b + c, d);
  }

  /** In a sequence without repetitions, the element at k occurs at k only. */
  lemma DistinctAt<T>(s: seq<T>, k: int)
    requires Distinct(s) && 0 <= k < |s|
    ensures forall i :: 0 <= i < |s| ==> (s[i] == s[k] <==> i == k)
  {
  }

  /**
   * The streets are exactly the tiles with a colour, and the colour groups sit
   * on the listed squares: two for brown and dark blue, three for the others.
   */
  lemma UkColorGroups()
    ensures |UkTiles()| == 40
    ensures forall i :: 0 <= i < 40 ==> (Colors(UkTiles())[i].Some? <==> Kinds(UkTiles())[i] == Some(PROPERTY))
    ensures forall i, c :: 0 <= i < 40 ==> (Colors(UkTiles())[i] == Some(c) <==> i in GroupSquares(c))
    ensures forall c :: |GroupSquares(c)| == if c == BROWN || c == DARK_BLUE then 2 else 3
  {
    UkColumns();
    Row0Columns(); Row1Columns(); Row2Columns(); Row3Columns();
    var cs, ks := Colors(UkTiles()), Kinds(UkTiles());
    ColoredColumnFacts(cs, Colors(Row0()), Colors(Row1()), Colors(Row2()), Colors(Row3()),
                       ks, Kinds(Row0()), Kinds(Row1()), Kinds(Row2()), Kinds(Row3()));
    ColorColumnFactsLow(cs, Colors(Row0()), Colors(Row1()), Colors(Row2()), Colors(Row3()));
    ColorColumnFactsHigh(cs, Colors(Row0()), Colors(Row1()), Colors(Row2()), Colors(Row3()));
    GroupSizes();
  }

  /** Every tile has a code, and no two tiles share one. */
  lemma UkCodesUnique()
    ensures |UkTiles()| == 40
    ensures forall i :: 0 <= i < 40 ==> Codes(UkTiles())[i].Some?
    ensures Distinct(Codes(UkTiles()))
  {
    UkColumns();
    Row0Columns(); Row1Columns(); Row2Columns(); Row3Columns();
    var d0, d1, d2, d3 := Codes(Row0()), Codes(Row1()), Codes(Row2()), Codes(Row3());
    CodeColumnFacts(Codes(UkTiles()), d0, d1, d2, d3);
    CodeRowsDistinct(d0, d1, d2, d3);
    CodeRowsApart(d0, d1); CodeRowsApart(d0, d2); CodeRowsApart(d0, d3);
    CodeRowsApart(d1, d2); CodeRowsApart(d1, d3); CodeRowsApart(d2, d3);
    DistinctConcat4(d0, d1, d2, d3);
  }

  /** Each code a chance card jumps to names exactly one tile: red_03 is 24, purple_01 11, rr_01 5, darkblue_02 39. */
  lemma UkCardTargets()
    ensures |UkTiles()| == 40
    ensures forall i :: 0 <= i < 40 ==> (Codes(UkTiles())[i] == Some("red_03") <==> i == 24)
    ensures forall i :: 0 <= i < 40 ==> (Codes(UkTiles())[i] == Some("purple_01") <==> i == 11)
    ensures forall i :: 0 <= i < 40 ==> (Codes(UkTiles())[i] == Some("rr_01") <==> i == 5)
    ensures forall i :: 0 <= i < 40 ==> (Codes(UkTiles())[i] == Some("darkblue_02") <==> i == 39)
  {
    UkCodesUnique();
    UkColumns();
    Row0Columns(); Row1Columns(); Row2Columns(); Row3Columns();
    var ds := Codes(UkTiles());
    CodeColumnFacts(ds, Codes(Row0()), Codes(Row1()), Codes(Row2()), Codes(Row3()));
    DistinctAt(ds, 24); DistinctAt(ds, 11); DistinctAt(ds, 5); DistinctAt(ds, 39);
  }

  /** A street's rent table: levels '0'..'4' and 'h' (hotel), rising with each level. */
  predicate StreetRentTable(r: RentTable) {
    && r.Keys == {"0", "1", "2", "3", "4", "h"}
    && r["0"] < r["1"] < r["2"] < r["3"] < r["4"] < r["h"]
  }

  /** The rent table a tile of each buyable kind carries. */
  predicate RentShape(t: BoardTile) {
    && (t.tileType == Some(PROPERTY) ==> t.rent.Some? && StreetRentTable(t.rent.value))
    && (t.tileType == Some(RAILROAD) ==> t.rent == Some(RailroadRent))
    && (t.tileType == Some(UTILITY) ==> t.rent.None?)
  }

  predicate RentShapes(ts: seq<BoardTile>) {
    forall i :: 0 <= i < |ts| ==> RentShape(ts[i])
  }

  lemma RentShapesConcat4(a: seq<BoardTile>, b: seq<BoardTile>, c: seq<BoardTile>, d: seq<BoardTile>)
    requires RentShapes(a) && RentShapes(b) && RentShapes(c) && RentShapes(d)
    ensures RentShapes(a + b + c + d)
  {
  }

  lemma Row0Rents() ensures RentShapes(Row0()) {}
  lemma Row1Rents() ensures RentShapes(Row1()) {}
  lemma Row2Rents() ensures RentShapes(Row2()) {}
  lemma Row3Rents() ensures RentShapes(Row3()) {}

  /**
   * Every street's table has the keys '0'..'4' and 'h' with rising rents,
   * every railroad carries the railroad table and the utilities have none.
   */
  lemma UkRentTables()
    ensures RentShapes(UkTiles())
  {
    UkTilesRows();
    Row0Rents(); Row1Rents(); Row2Rents(); Row3Rents();
    RentShapesConcat4(Row0(), Row1(), Row2(), Row3());
  }

  /** A railroad's rent is 25 with one station owned and doubles with each further one, up to four. */
  lemma RailroadRentDoubles()
    ensures RailroadRent.Keys == {"1r", "2r", "3r", "4r"}
    ensures RailroadRent["1r"] == 25 && RailroadRent["2r"] == 2 * RailroadRent["1r"]
    ensures RailroadRent["3r"] == 2 * RailroadRent["2r"] && RailroadRent["4r"] == 2 * RailroadRent["3r"]
  {
  }
}
