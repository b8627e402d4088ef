/**
 * Tile kinds, property colours, the tile record and the eleven tile factories
 * (monopoly/core/BoardTile.js).
 */
module BoardTiles {
  import opened Wrappers

  datatype BoardTileType =
    | PROPERTY | RAILROAD | UTILITY | COMM_CHEST | GO | JAIL | GO_TO_JAIL
    | CHANCE | INCOME_TAX | SUPER_TAX | FREE_PARKING

  datatype PropertyColor =
    | BROWN | LIGHT_BLUE | PURPLE | ORANGE | RED | YELLOW | GREEN | DARK_BLUE

  /** A rent table: keys '0'..'4' and 'h' for streets, '1r'..'4r' for railroads. */
  type RentTable = map<string, int>

  /**
   * The named arguments a tile is built from. `None` is a field the caller did
   * not pass (JavaScript leaves it `undefined`).
   */
  datatype TileArgs = TileArgs(
    name: Option<string>,
    tileType: Option<BoardTileType>,
    color: Option<PropertyColor>,
    price: Option<int>,
    mortgageValue: Option<int>,
    rent: Option<RentTable>,
    ownable: Option<bool>,
    code: Option<string>,
    houseCost: Option<int>)

  const NoArgs := TileArgs(None, None, None, None, None, None, None, None, None)

  /** A board tile template. */
  datatype BoardTile = BoardTile(
    name: Option<string>,
    tileType: Option<BoardTileType>,
    color: Option<PropertyColor>,
    price: Option<int>,
    mortgageValue: Option<int>,
    rent: Option<RentTable>,
    ownable: Option<bool>,
    code: Option<string>,
    houseCost: Option<int>)
  {
    /** Only streets, railroads and utilities can be bought. */
    predicate IsBuyable() {
      tileType == Some(PROPERTY) || tileType == Some(RAILROAD) || tileType == Some(UTILITY)
    }

    /** The source lists the same three kinds again, separately from IsBuyable. */
    predicate IsMortgageable() {
      tileType == Some(PROPERTY) || tileType == Some(RAILROAD) || tileType == Some(UTILITY)
    }

    /** Only streets carry houses and hotels. */
    predicate IsDevelopable() {
      tileType == Some(PROPERTY)
    }

    /** A stub: the rent never depends on the level (0-4 houses, 5 = hotel) or on the table. */
    function GetRent(numHouses: int): (rent: int)
      ensures rent == 10
    {
      10
    }
  }

  /**
   * The constructor AS WRITTEN: it destructures only name, type, color, price,
   * mortgageValue, rent and ownable, so the `code` and `houseCost` every row of
   * the board table passes are dropped (they read back as `undefined`).
   */
  function BoardTileAsWritten(args: TileArgs): (t: BoardTile)
    ensures t.code == None && t.houseCost == None
  {
    BoardTile(args.name, args.tileType, args.color, args.price, args.mortgageValue,
              args.rent, args.ownable, None, None)
  }

  /**
   * The constructor as the rest of the game needs it: it stores every field it
   * is given, including the `code` the cards look tiles up by and the `houseCost`.
   */
  function NewBoardTile(args: TileArgs): BoardTile {
    BoardTile(args.name, args.tileType, args.color, args.price, args.mortgageValue,
              args.rent, args.ownable, args.code, args.houseCost)
  }

  /** The arguments a tile records, read back from it. */
  function ArgsOf(t: BoardTile): TileArgs {
    TileArgs(t.name, t.tileType, t.color, t.price, t.mortgageValue,
             t.rent, t.ownable, t.code, t.houseCost)
  }

  /** Construction stores each given field unchanged: reading them back gives the arguments. */
  lemma NewBoardTileRoundTrip(args: TileArgs)
    ensures ArgsOf(NewBoardTile(args)) == args
    ensures NewBoardTile(ArgsOf(NewBoardTile(args))) == NewBoardTile(args)
  {
  }

  /** Two rows of the board table that differ only in their code (commchest_01, commchest_02) give the same tile as written. */
  lemma AsWrittenLosesCode()
    ensures var a1 := NoArgs.(name := Some("Community Chest"), tileType := Some(COMM_CHEST),
                              ownable := Some(false), code := Some("commchest_01"));
            var a2 := a1.(code := Some("commchest_02"));
            a1 != a2 && BoardTileAsWritten(a1) == BoardTileAsWritten(a2)
            && NewBoardTile(a1) != NewBoardTile(a2)
  {
  }

  /** Buyable, mortgageable and developable kinds. */
  lemma TileKindPredicates(t: BoardTile)
    ensures t.IsBuyable() <==> t.tileType.Some? && t.tileType.value in {PROPERTY, RAILROAD, UTILITY}
    ensures t.IsMortgageable() <==> t.IsBuyable()
    ensures t.IsDevelopable() ==> t.IsBuyable()
    ensures t.IsDevelopable() <==> t.tileType == Some(PROPERTY)
  {
  }

  /** The eleven factory functions of the source. */
  datatype TileFactory =
    | PropertyTile | RailroadTile | UtilityTile | CommChestTile | GoTile | JailTile
    | GoToJailTile | ChanceTile | IncomeTaxTile | SuperTaxTile | FreeParkingTile

  /** The fields a factory writes before it spreads the caller's arguments. */
  function FactoryDefaults(f: TileFactory): TileArgs {
    match f
    case PropertyTile => NoArgs.(tileType := Some(PROPERTY), ownable := Some(true))
    case RailroadTile => NoArgs.(tileType := Some(RAILROAD), ownable := Some(true))
    case UtilityTile => NoArgs.(tileType := Some(UTILITY), ownable := Some(true))
    case CommChestTile =>
      NoArgs.(name := Some("Community Chest"), tileType := Some(COMM_CHEST), ownable := Some(false))
    case GoTile => NoArgs.(name := Some("Go"), tileType := Some(GO), ownable := Some(false))
    case JailTile => NoArgs.(name := Some("Jail"), tileType := Some(JAIL), ownable := Some(false))
    case GoToJailTile =>
      NoArgs.(name := Some("Go To Jail"), tileType := Some(GO_TO_JAIL), ownable := Some(false))
    case ChanceTile => NoArgs.(name := Some("Chance"), tileType := Some(CHANCE), ownable := Some(false))
    case IncomeTaxTile =>
      NoArgs.(name := Some("Income Tax"), tileType := Some(INCOME_TAX), ownable := Some(false))
    case SuperTaxTile =>
      NoArgs.(name := Some("Super Tax"), tileType := Some(SUPER_TAX), ownable := Some(false))
    case FreeParkingTile =>
      NoArgs.(name := Some("Free Parking"), tileType := Some(FREE_PARKING), ownable := Some(false))
  }

  /** `{...defaults, ...args}`: a field the caller passed wins over the default. */
  function Spread(defaults: TileArgs, args: TileArgs): TileArgs {
    TileArgs(
      args.name.Or(defaults.name),
      args.tileType.Or(defaults.tileType),
      args.color.Or(defaults.color),
      args.price.Or(defaults.price),
      args.mortgageValue.Or(defaults.mortgageValue),
      args.rent.Or(defaults.rent),
      args.ownable.Or(defaults.ownable),
      args.code.Or(defaults.code),
      args.houseCost.Or(defaults.houseCost))
  }

  /** `PropertyTile({...args})` and its ten siblings. */
  function MakeTile(f: TileFactory, args: TileArgs): BoardTile {
    NewBoardTile(Spread(FactoryDefaults(f), args))
  }

  /** The three factories of ownable tiles. */
  predicate OwnableFactory(f: TileFactory) {
    f == PropertyTile || f == RailroadTile || f == UtilityTile
  }

  /**
   * Unless the caller overrides type or ownable, a factory-built tile is
   * ownable exactly when it is buyable, and has a default name exactly when it
   * is not ownable.
   */
  lemma FactoryOwnableIsBuyable(f: TileFactory, args: TileArgs)
    requires args.tileType.None? && args.ownable.None?
    ensures MakeTile(f, args).ownable == Some(MakeTile(f, args).IsBuyable())
    ensures MakeTile(f, args).ownable == Some(OwnableFactory(f))
    ensures args.name.None? ==> (MakeTile(f, args).name.Some? <==> !OwnableFactory(f))
  {
  }

  /**
   * Every field the caller passes is stored as passed (the spread puts the
   * arguments last); every field the caller leaves out takes the factory's
   * default, which is absent for all but name, type and ownable.
   */
  lemma CallerArgsOverride(f: TileFactory, args: TileArgs)
    ensures ArgsOf(MakeTile(f, args)) == Spread(FactoryDefaults(f), args)
    ensures args.name.Some? ==> MakeTile(f, args).name == args.name
    ensures args.tileType.Some? ==> MakeTile(f, args).tileType == args.tileType
    ensures args.ownable.Some? ==> MakeTile(f, args).ownable == args.ownable
    ensures MakeTile(f, args).color == args.color && MakeTile(f, args).price == args.price
    ensures MakeTile(f, args).mortgageValue == args.mortgageValue
    ensures MakeTile(f, args).rent == args.rent && MakeTile(f, args).code == args.code
    ensures MakeTile(f, args).houseCost == args.houseCost
  {
  }
}
