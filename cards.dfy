/** The card value of src/game/wizard_card.py: a frozen dataclass with a
    type, an optional suit and an optional value, whose constructor checks
    that exactly the Standard cards carry a suit and a value. The datatype
    below makes that invariant structural; MakeCard is the checking
    constructor and TypeOf/SuitOf/ValueOf give back the three fields. */
module Cards {
  import opened Outcomes

  datatype Suit = Hearts | Spades | Clubs | Diamonds

  datatype CardType = StandardType | JesterType | WizardType

  /** A card. The class does not restrict the value of a Standard card;
      only the deck factory keeps it within 1..13. */
  datatype Card = Standard(suit: Suit, value: int) | Jester | Wizard

  function TypeOf(c: Card): CardType {
    match c
    case Standard(_, _) => StandardType
    case Jester => JesterType
    case Wizard => WizardType
  }

  /** The `card_suit` field: None for Wizards and Jesters. */
  function SuitOf(c: Card): Option<Suit> {
    if c.Standard? then Some(c.suit) else None
  }

  /** The `card_value` field: None for Wizards and Jesters. */
  function ValueOf(c: Card): Option<int> {
    if c.Standard? then Some(c.value) else None
  }

  /** `WizardCard(card_type, card_suit, card_value)` with the checks of
      `__post_init__`: a Standard card needs both a suit and a value, a
      Wizard or Jester must have neither. */
  function MakeCard(t: CardType, suit: Option<Suit>, value: Option<int>): (r: Result<Card>)
    ensures r.Ok? <==> if t == StandardType then suit.Some? && value.Some?
                                            else suit.None? && value.None?
    ensures r.Err? ==> r.failure == InvalidCard
    ensures r.Ok? ==> TypeOf(r.value) == t && SuitOf(r.value) == suit && ValueOf(r.value) == value
  {
    match t
    case StandardType =>
      if suit.None? || value.None? then Err(InvalidCard)
      else Ok(Standard(suit.value, value.value))
    case JesterType =>
      if suit.Some? || value.Some? then Err(InvalidCard) else Ok(Jester)
    case WizardType =>
      if suit.Some? || value.Some? then Err(InvalidCard) else Ok(Wizard)
  }

  /** Every card the class admits is Standard exactly when it has a suit,
      exactly when it has a value, and is rebuilt from its own fields. */
  lemma {:induction false} CardFieldsAgree(c: Card)
    ensures TypeOf(c) == StandardType <==> SuitOf(c).Some?
    ensures TypeOf(c) == StandardType <==> ValueOf(c).Some?
    ensures MakeCard(TypeOf(c), SuitOf(c), ValueOf(c)) == Ok(c)
  {
  }

  /** The generated `__eq__` of a frozen dataclass: field-by-field. It
      coincides with equality of the model's card values, which is what
      the `in` test and `list.remove` of Turn.play rely on. */
  function CardEquals(a: Card, b: Card): (r: bool)
    ensures r <==> a == b
  {
    TypeOf(a) == TypeOf(b) && SuitOf(a) == SuitOf(b) && ValueOf(a) == ValueOf(b)
  }
}
