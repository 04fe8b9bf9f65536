/** The 60-card deck of game/wizard_card_factory.py. */
module CardFactory {
  import opened Cards

  /** The iteration order of the CardSuit enum: its declaration order. */
  const SuitOrder: seq<Suit> := [Hearts, Spades, Clubs, Diamonds]

  /** Position of a suit in SuitOrder. */
  function SuitIndex(s: Suit): (k: nat)
    ensures k < 4 && SuitOrder[k] == s
  {
    match s
    case Hearts => 0
    case Spades => 1
    case Clubs => 2
    case Diamonds => 3
  }

  /** The thirteen cards of one suit, values 1 to 13 in order. */
  function SuitRun(s: Suit): seq<Card> {
    seq(13, v => Standard(s, v + 1))
  }

  function Copies(c: Card, n: nat): seq<Card> {
    seq(n, _ => c)
  }

  /** `create_wizard_cards`: the Standard cards suit by suit, then four
      Wizards, then four Jesters. */
  function CreateWizardCards(): (deck: seq<Card>)
    ensures |deck| == 60
    ensures forall i :: 0 <= i < 52 ==> deck[i] == Standard(SuitOrder[i / 13], i % 13 + 1)
    ensures forall i :: 52 <= i < 56 ==> deck[i] == Wizard
    ensures forall i :: 56 <= i < 60 ==> deck[i] == Jester
  {
    var normal := SuitRun(Hearts) + SuitRun(Spades) + SuitRun(Clubs) + SuitRun(Diamonds);
    assert forall i :: 0 <= i < 52 ==> normal[i] == Standard(SuitOrder[i / 13], i % 13 + 1) by {
      forall i | 0 <= i < 52 ensures normal[i] == Standard(SuitOrder[i / 13], i % 13 + 1) {
        if i < 13 {
        } else if i < 26 {
        } else if i < 39 {
        } else {
        }
      }
    }
    normal + Copies(Wizard, 4) + Copies(Jester, 4)
  }

  /** A value occurring at exactly one index occurs once in the multiset. */
  lemma {:induction false} OccursOnce<T>(s: seq<T>, x: T, k: nat)
    requires k < |s| && s[k] == x
    requires forall i :: 0 <= i < |s| && i != k ==> s[i] != x
    ensures multiset(s)[x] == 1
  {
    assert s == s[..k] + [x] + s[k+1..];
    assert x !in s[..k];
    assert x !in s[k+1..];
    assert multiset(s) == multiset(s[..k]) + multiset{x} + multiset(s[k+1..]);
  }

  /** Exactly 52 Standard cards, and each of them is at the place the
      suit-then-value order gives it. */
  lemma StandardCardsFirst()
    ensures forall i :: 0 <= i < 60 ==> (CreateWizardCards()[i].Standard? <==> i < 52)
    ensures forall i :: 0 <= i < 60 && CreateWizardCards()[i].Standard? ==>
              SuitIndex(CreateWizardCards()[i].suit) * 13 + CreateWizardCards()[i].value - 1 == i
  {
    var deck := CreateWizardCards();
    forall i | 0 <= i < 60 && deck[i].Standard?
      ensures SuitIndex(deck[i].suit) * 13 + deck[i].value - 1 == i
    {
      assert i < 52;
      assert deck[i] == Standard(SuitOrder[i / 13], i % 13 + 1);
      assert SuitIndex(SuitOrder[i / 13]) == i / 13;
    }
  }

  /** Four Wizards and four Jesters, and every Standard card has a value
      in 1..13. */
  lemma DeckSpecials()
    ensures multiset(CreateWizardCards())[Wizard] == 4
    ensures multiset(CreateWizardCards())[Jester] == 4
    ensures forall c :: c in CreateWizardCards() && c.Standard? ==> 1 <= c.value <= 13
  {
    var deck := CreateWizardCards();
    StandardCardsFirst();
    assert deck == deck[..52] + [Wizard, Wizard, Wizard, Wizard] + [Jester, Jester, Jester, Jester];
    assert Wizard !in deck[..52] && Jester !in deck[..52];
  }

  /** The deck holds every (suit, value) pair with value in 1..13 exactly
      once. */
  lemma DeckStandards()
    ensures forall s: Suit, v :: 1 <= v <= 13 ==> multiset(CreateWizardCards())[Standard(s, v)] == 1
  {
    var deck := CreateWizardCards();
    StandardCardsFirst();
    forall s: Suit, v | 1 <= v <= 13 ensures multiset(deck)[Standard(s, v)] == 1 {
      var k := SuitIndex(s) * 13 + v - 1;
      assert k / 13 == SuitIndex(s) && k % 13 == v - 1;
      OccursOnce(deck, Standard(s, v), k);
    }
  }
}
