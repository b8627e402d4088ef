/**
 * Chance and community-chest cards (monopoly/core/MonopolyCard.js). A card's
 * effect is a value of the type parameter `E`; the UK decks use the effects of
 * the CardData module.
 */
module MonopolyCards {
  import opened Wrappers

  datatype CardType = CHANCE | COMM_CHEST

  /** The named arguments a card is built from; `None` is a field the caller left out. */
  datatype CardArgs<E> = CardArgs(
    cardType: Option<CardType>,
    name: Option<string>,
    code: Option<string>,
    description: Option<string>,
    effect: Option<E>,
    keepable: Option<bool>)

  /** A card. `keepable` is always a boolean: the constructor defaults it to false. */
  datatype MonopolyCard<E> = MonopolyCard(
    cardType: Option<CardType>,
    name: Option<string>,
    code: Option<string>,
    description: Option<string>,
    effect: Option<E>,
    keepable: bool)

  /** `new MonopolyCard({type, name, code, description, effect, keepable = false})`. */
  function NewMonopolyCard<E>(args: CardArgs<E>): MonopolyCard<E> {
    MonopolyCard(args.cardType, args.name, args.code, args.description, args.effect,
                 args.keepable.GetOr(false))
  }

  /** `{type: t, ...args}`: a type the caller passes wins, because the arguments are spread last. */
  function WithType<E>(t: CardType, args: CardArgs<E>): CardArgs<E> {
    args.(cardType := args.cardType.Or(Some(t)))
  }

  /** `chanceCard({...args})`. */
  function ChanceCard<E>(args: CardArgs<E>): MonopolyCard<E> {
    NewMonopolyCard(WithType(CHANCE, args))
  }

  /** `commChestCard({...args})`. */
  function CommChestCard<E>(args: CardArgs<E>): MonopolyCard<E> {
    NewMonopolyCard(WithType(COMM_CHEST, args))
  }

  /**
   * The constructor copies name, code, description and effect unchanged, keeps
   * a given type and keepable flag, and makes a card not keepable unless told so.
   */
  lemma NewMonopolyCardFields<E>(args: CardArgs<E>)
    ensures NewMonopolyCard(args).cardType == args.cardType
    ensures NewMonopolyCard(args).name == args.name && NewMonopolyCard(args).code == args.code
    ensures NewMonopolyCard(args).description == args.description
    ensures NewMonopolyCard(args).effect == args.effect
    ensures args.keepable.None? ==> !NewMonopolyCard(args).keepable
    ensures args.keepable.Some? ==> NewMonopolyCard(args).keepable == args.keepable.value
  {
  }

  /**
   * A chance card has type CHANCE and a community-chest card type COMM_CHEST
   * unless the caller passes a type of its own; every other field is the
   * constructor's.
   */
  lemma FactoryCardTypes<E>(args: CardArgs<E>)
    ensures args.cardType.None? ==> ChanceCard(args).cardType == Some(CHANCE)
    ensures args.cardType.None? ==> CommChestCard(args).cardType == Some(COMM_CHEST)
    ensures args.cardType.Some? ==> ChanceCard(args).cardType == args.cardType
    ensures args.cardType.Some? ==> CommChestCard(args).cardType == args.cardType
    ensures ChanceCard(args) == NewMonopolyCard(args).(cardType := ChanceCard(args).cardType)
    ensures CommChestCard(args) == NewMonopolyCard(args).(cardType := CommChestCard(args).cardType)
  {
  }
}
