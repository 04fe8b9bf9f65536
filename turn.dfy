/** src/core/turn.py: the legal-play rule `valid_cards` and one player's
    `Turn.play`. */
module Turns {
  import opened Outcomes
  import opened Cards
  import opened Collections
  import opened Players

  /** One entry of a trick's `trick_cards` dictionary. */
  datatype Entry = Entry(player: PlayerId, card: Card)

  /** The keys of a trick, in insertion order. */
  function PlayersOf(trick: seq<Entry>): (ps: seq<PlayerId>)
    ensures |ps| == |trick| && forall i :: 0 <= i < |trick| ==> ps[i] == trick[i].player
  {
    if trick == [] then [] else PlayersOf(trick[..|trick| - 1]) + [trick[|trick| - 1].player]
  }

  /** `trick_cards[p] = c` on an insertion-ordered dictionary. PutRule
      states what the assignment does. */
  function Put(trick: seq<Entry>, p: PlayerId, c: Card): seq<Entry>
  {
    if p in PlayersOf(trick) then trick[IndexOf(PlayersOf(trick), p) := Entry(p, c)]
    else trick + [Entry(p, c)]
  }

  /** `trick_cards[p]`: the card recorded for p. */
  function CardOf(trick: seq<Entry>, p: PlayerId): Card
    requires p in PlayersOf(trick)
  {
    trick[IndexOf(PlayersOf(trick), p)].card
  }

  /** Dictionary assignment: afterwards p maps to c and every other key
      keeps its card; the keys stay as they were, in the same order, with
      p added at the end when it is new. */
  lemma PutRule(trick: seq<Entry>, p: PlayerId, c: Card)
    ensures PlayersOf(Put(trick, p, c)) ==
              if p in PlayersOf(trick) then PlayersOf(trick) else PlayersOf(trick) + [p]
    ensures p in PlayersOf(Put(trick, p, c)) && CardOf(Put(trick, p, c), p) == c
    ensures forall q :: q in PlayersOf(trick) && q != p ==>
              q in PlayersOf(Put(trick, p, c)) && CardOf(Put(trick, p, c), q) == CardOf(trick, q)
  {
    var keys, after := PlayersOf(trick), Put(trick, p, c);
    if p in keys {
      assert PlayersOf(after) == keys;
    } else {
      assert PlayersOf(after) == keys + [p];
      assert (keys + [p])[..|trick|] == keys;
      IndexOfUnique(keys + [p], p, |trick|);
      forall q | q in keys
        ensures IndexOf(keys + [p], q) == IndexOf(keys, q)
      {
        var j := IndexOf(keys, q);
        assert (keys + [p])[..j] == keys[..j];
        IndexOfUnique(keys + [p], q, j);
      }
    }
  }

  /** The Wizards and Jesters of a hand, in hand order. */
  function Specials(hand: seq<Card>): (r: seq<Card>)
    ensures |r| <= |hand|
    ensures forall c :: c in r <==> c in hand && !c.Standard?
  {
    if hand == [] then []
    else (if hand[0].Standard? then [] else [hand[0]]) + Specials(hand[1..])
  }

  /** The cards whose `card_suit` equals `suit`, in hand order. With
      `suit` None these are the Wizards and Jesters, whose suit is None. */
  function Matching(hand: seq<Card>, suit: Option<Suit>): (r: seq<Card>)
    ensures |r| <= |hand|
    ensures forall c :: c in r <==> c in hand && SuitOf(c) == suit
  {
    if hand == [] then []
    else (if SuitOf(hand[0]) == suit then [hand[0]] else []) + Matching(hand[1..], suit)
  }

  /** `valid_cards(hand, current_trick, trick_suit)`: the hand itself
      when the trick is empty; otherwise the Wizards and Jesters followed
      by the cards of the led suit, or the whole hand when it has none of
      that suit. ValidCardsRule states what this allows. */
  function ValidCards(hand: seq<Card>, trick: seq<Entry>, trickSuit: Option<Suit>): seq<Card>
  {
    if |trick| == 0 then hand
    else
      var matching := Matching(hand, trickSuit);
      if matching != [] then Specials(hand) + matching else hand
  }

  /** The legal-play rule. An empty trick lets the player lead anything.
      Otherwise the player must follow the led suit if they can, Wizards
      and Jesters always being allowed, and may play anything if they
      cannot. Every legal card comes from the hand, and a player with
      cards always has a legal one. */
  lemma ValidCardsRule(hand: seq<Card>, trick: seq<Entry>, trickSuit: Option<Suit>)
    ensures trick == [] ==> ValidCards(hand, trick, trickSuit) == hand
    ensures forall c :: c in ValidCards(hand, trick, trickSuit) ==> c in hand
    ensures ValidCards(hand, trick, trickSuit) == [] <==> hand == []
    ensures trick != [] && (exists c :: c in hand && SuitOf(c) == trickSuit) ==>
              forall c :: c in ValidCards(hand, trick, trickSuit) <==>
                c in hand && (!c.Standard? || SuitOf(c) == trickSuit)
    ensures trick != [] && (forall c :: c in hand ==> SuitOf(c) != trickSuit) ==>
              ValidCards(hand, trick, trickSuit) == hand
  {
    var matching := Matching(hand, trickSuit);
    assert (exists c :: c in hand && SuitOf(c) == trickSuit) <==> matching != [] by {
      if matching != [] {
        assert matching[0] in matching;
      }
    }
  }

  /** Follow suit: once a Standard card has set the led suit, a player who
      holds that suit can play no Standard card of another suit. */
  lemma {:induction false} MustFollowSuit(hand: seq<Card>, trick: seq<Entry>, led: Suit, c: Card)
    requires trick != []
    requires exists d :: d in hand && SuitOf(d) == Some(led)
    requires c in ValidCards(hand, trick, Some(led)) && c.Standard?
    ensures c.suit == led
  {
    ValidCardsRule(hand, trick, Some(led));
  }

  /** The led suit is None while the trick is not empty (only Wizards and
      Jesters so far): `card_suit == None` then picks out the Wizards and
      Jesters, so a hand holding one may play only those, each listed
      twice; a hand without them may play anything. */
  lemma {:induction false} NoLedSuitQuirk(hand: seq<Card>, trick: seq<Entry>)
    requires trick != []
    ensures (exists c :: c in hand && !c.Standard?) ==>
              ValidCards(hand, trick, None) == Specials(hand) + Specials(hand)
    ensures (forall c :: c in hand ==> c.Standard?) ==> ValidCards(hand, trick, None) == hand
  {
    SpecialsAreNoneSuited(hand);
    ValidCardsRule(hand, trick, None);
  }

  lemma {:induction false} SpecialsAreNoneSuited(hand: seq<Card>)
    ensures Matching(hand, None) == Specials(hand)
  {
    if hand != [] {
      SpecialsAreNoneSuited(hand[1..]);
    }
  }

  /** `list.remove(c)` on a hand holding c: the hand without its first
      copy of c. RemoveFirstRule states which card goes. */
  function RemoveFirst(hand: seq<Card>, c: Card): (r: seq<Card>)
    requires c in hand
    ensures |r| == |hand| - 1
  {
    if hand[0] == c then hand[1..] else [hand[0]] + RemoveFirst(hand[1..], c)
  }

  /** `list.remove(c)` drops the first occurrence of c, at i, and keeps
      the rest in order. */
  lemma {:induction false} RemoveFirstRule(hand: seq<Card>, c: Card, i: nat)
    requires i < |hand| && hand[i] == c && c !in hand[..i]
    ensures RemoveFirst(hand, c) == hand[..i] + hand[i + 1..]
  {
    if i > 0 {
      assert hand[0] in hand[..i];
      var t := hand[1..];
      assert t[..i - 1] == hand[1..i];
      RemoveFirstRule(t, c, i - 1);
      assert hand[..i] == [hand[0]] + t[..i - 1];
      assert hand[i + 1..] == t[i..];
    }
  }

  /** Removing c takes one copy of c out of the hand and nothing else. */
  lemma {:induction false} RemoveFirstCounts(hand: seq<Card>, c: Card)
    requires c in hand
    ensures multiset(RemoveFirst(hand, c)) == multiset(hand) - multiset{c}
  {
    assert hand == [hand[0]] + hand[1..];
    if hand[0] != c {
      RemoveFirstCounts(hand[1..], c);
    }
  }

  /** The led-suit update after playing c: only an unset led suit changes,
      and only a Standard card sets it. */
  function NextLedSuit(led: Option<Suit>, c: Card): (r: Option<Suit>)
    ensures r != led ==> led.None? && c.Standard? && r == Some(c.suit)
    ensures led.Some? ==> r == led
  {
    if led.None? && c.Standard? then Some(c.suit) else led
  }

  /** What the player's `play_card` is shown: the game-state snapshot,
      reduced to what the turn and its trick know. */
  datatype CardRequest = CardRequest(player: PlayerId, hand: seq<Card>, trick: seq<Entry>,
                                     trickSuit: Option<Suit>, trump: Option<Suit>)

  /** A player's card choice, opaque to the engine. */
  type CardStrategy = CardRequest -> Card

  class Turn {
    const player: PlayerId
    var hand: seq<Card>
    var trickCards: seq<Entry>
    var trickSuit: Option<Suit>
    /** The trump suit, as the game-state callback reports it. */
    const trump: Option<Suit>
    var playedCard: Option<Card>

    constructor (player: PlayerId, hand: seq<Card>, trickCards: seq<Entry>,
                 trickSuit: Option<Suit>, trump: Option<Suit>)
      ensures this.player == player && this.hand == hand && this.trickCards == trickCards
      ensures this.trickSuit == trickSuit && this.trump == trump && playedCard == None
    {
      this.player := player;
      this.hand := hand;
      this.trickCards := trickCards;
      this.trickSuit := trickSuit;
      this.trump := trump;
      playedCard := None;
    }

    /** `Turn.play`: asks the player for a card, rejects it unless it is
        legal, then takes it from the hand, records it in the trick and
        updates the led suit. A rejected card changes nothing. */
    method Play(decide: CardStrategy) returns (r: Result<Card>)
      modifies this
      ensures var chosen := decide(CardRequest(player, old(hand), old(trickCards), old(trickSuit), trump));
              r.Ok? <==> chosen in ValidCards(old(hand), old(trickCards), old(trickSuit))
      ensures var chosen := decide(CardRequest(player, old(hand), old(trickCards), old(trickSuit), trump));
              r.Ok? ==>
                r.value == chosen && chosen in old(hand) &&
                hand == RemoveFirst(old(hand), chosen) &&
                trickCards == Put(old(trickCards), player, chosen) &&
                playedCard == Some(chosen) &&
                trickSuit == NextLedSuit(old(trickSuit), chosen)
      ensures r.Err? ==>
                r.failure == IllegalCardPlayed(player) &&
                hand == old(hand) && trickCards == old(trickCards) &&
                trickSuit == old(trickSuit) && playedCard == old(playedCard)
    {
      var playable := ValidCards(hand, trickCards, trickSuit);
      ValidCardsRule(hand, trickCards, trickSuit);
      var chosen := decide(CardRequest(player, hand, trickCards, trickSuit, trump));
      if chosen !in playable {
        return Err(IllegalCardPlayed(player));
      }
      hand := RemoveFirst(hand, chosen);
      trickCards := Put(trickCards, player, chosen);
      playedCard := Some(chosen);
      trickSuit := NextLedSuit(trickSuit, chosen);
      return Ok(chosen);
    }
  }
}
