/** src/core/trick.py: one card from every player, then the winner. */
module Tricks {
  import opened Outcomes
  import opened Cards
  import opened Collections
  import opened Players
  import opened Turns

  predicate IsWizard(c: Card) { c == Wizard }

  /** The index of the first play whose card satisfies `wanted`. */
  function FirstWhere(trick: seq<Entry>, wanted: Card -> bool): (r: Option<nat>)
    ensures r.None? <==> forall i :: 0 <= i < |trick| ==> !wanted(trick[i].card)
    ensures r.Some? ==> r.value < |trick| && wanted(trick[r.value].card)
    ensures r.Some? ==> forall i :: 0 <= i < r.value ==> !wanted(trick[i].card)
  {
    if trick == [] then None
    else if wanted(trick[0].card) then Some(0)
    else
      match FirstWhere(trick[1..], wanted)
      case None => None
      case Some(k) => Some(k + 1)
  }

  /** The led suit, built the way `Trick.play` builds `_trick_suit`: each
      play may set it through NextLedSuit. FirstStandardSuitIsFirst
      states what it is. */
  function FirstStandardSuit(trick: seq<Entry>): Option<Suit>
  {
    if trick == [] then None
    else NextLedSuit(FirstStandardSuit(trick[..|trick| - 1]), trick[|trick| - 1].card)
  }

  /** The led suit is the suit of the first Standard card played, and
      None when no Standard card was played. */
  lemma {:induction false} FirstStandardSuitIsFirst(trick: seq<Entry>)
    ensures FirstStandardSuit(trick).None? <==> forall i :: 0 <= i < |trick| ==> !trick[i].card.Standard?
    ensures FirstStandardSuit(trick).Some? ==>
              exists i :: (0 <= i < |trick| && trick[i].card.Standard? &&
                trick[i].card.suit == FirstStandardSuit(trick).value &&
                forall j :: 0 <= j < i ==> !trick[j].card.Standard?)
  {
    if trick != [] {
      var front := trick[..|trick| - 1];
      FirstStandardSuitIsFirst(front);
      assert forall j :: 0 <= j < |front| ==> front[j] == trick[j];
      if FirstStandardSuit(front).Some? {
        var i :| 0 <= i < |front| && front[i].card.Standard? &&
                 front[i].card.suit == FirstStandardSuit(front).value &&
                 forall j :: 0 <= j < i ==> !front[j].card.Standard?;
        assert trick[i] == front[i];
      }
    }
  }

  /** Playing one more card updates the led suit as `Trick.play` does. */
  lemma FirstStandardSuitAppend(trick: seq<Entry>, x: Entry)
    ensures FirstStandardSuit(trick + [x]) == NextLedSuit(FirstStandardSuit(trick), x.card)
  {
    assert (trick + [x])[..|trick|] == trick;
  }

  /** Some played card has suit s. */
  predicate HasSuit(trick: seq<Entry>, s: Suit) {
    exists i :: 0 <= i < |trick| && SuitOf(trick[i].card) == Some(s)
  }

  /** Every played card is a Jester (true of an empty trick, as `all` is). */
  predicate AllJesters(trick: seq<Entry>) {
    forall i :: 0 <= i < |trick| ==> trick[i].card == Jester
  }

  /** `max(..., key=card_value)` over the plays of suit s: the highest
      value, and of several equal ones the earliest, as `max` keeps. */
  function Highest(trick: seq<Entry>, s: Suit): (k: nat)
    requires HasSuit(trick, s)
    ensures k < |trick| && SuitOf(trick[k].card) == Some(s)
    ensures forall i :: 0 <= i < |trick| && SuitOf(trick[i].card) == Some(s) ==>
              trick[i].card.value <= trick[k].card.value
    ensures forall i :: 0 <= i < k && SuitOf(trick[i].card) == Some(s) ==>
              trick[i].card.value < trick[k].card.value
  {
    var n := |trick| - 1;
    var front := trick[..n];
    assert forall j :: 0 <= j < n ==> front[j] == trick[j];
    if !HasSuit(front, s) then n
    else
      var k := Highest(front, s);
      if SuitOf(trick[n].card) == Some(s) && trick[n].card.value > trick[k].card.value then n else k
  }

  /** `determine_winner`, as the index of the winning play: the first
      Wizard; else, when every card is a Jester, the first play; else the
      highest trump if a trump suit is set and was played; else the highest
      card of the led suit. An empty trick has no winner (the source fails
      indexing its empty key list). */
  function WinningPlay(trick: seq<Entry>, trump: Option<Suit>): (w: Option<nat>)
    ensures w.None? <==> trick == []
    ensures w.Some? ==> w.value < |trick|
  {
    match FirstWhere(trick, IsWizard)
    case Some(i) => Some(i)
    case None =>
      if AllJesters(trick) then
        if trick == [] then None else Some(0)
      else if trump.Some? && HasSuit(trick, trump.value) then
        Some(Highest(trick, trump.value))
      else
        var led := FirstStandardSuit(trick);
        assert led.Some? && HasSuit(trick, led.value) by {
          FirstStandardSuitIsFirst(trick);
          var i :| 0 <= i < |trick| && trick[i].card != Jester;
          assert !IsWizard(trick[i].card);
          var k :| 0 <= k < |trick| && trick[k].card.Standard? && trick[k].card.suit == led.value &&
                   forall j :: 0 <= j < k ==> !trick[j].card.Standard?;
          assert SuitOf(trick[k].card) == Some(led.value);
        }
        Some(Highest(trick, led.value))
  }

  /** The winning player. */
  function DetermineWinner(trick: seq<Entry>, trump: Option<Suit>): (w: Option<PlayerId>)
    ensures w.None? <==> trick == []
    ensures w.Some? ==> w.value in PlayersOf(trick)
  {
    match WinningPlay(trick, trump)
    case None => None
    case Some(i) => Some(trick[i].player)
  }

  /** A Wizard wins outright: the earliest Wizard in play order, whatever
      was played after it. */
  lemma {:induction false} WizardWins(trick: seq<Entry>, trump: Option<Suit>, i: nat)
    requires i < |trick| && trick[i].card == Wizard
    requires forall j :: 0 <= j < i ==> trick[j].card != Wizard
    ensures WinningPlay(trick, trump) == Some(i)
  {
    assert IsWizard(trick[i].card);
  }

  /** A trick of Jesters only goes to the player who played first. */
  lemma {:induction false} AllJestersFirstWins(trick: seq<Entry>, trump: Option<Suit>)
    requires trick != [] && AllJesters(trick)
    ensures WinningPlay(trick, trump) == Some(0)
  {
    assert FirstWhere(trick, IsWizard).None? by {
      forall i | 0 <= i < |trick| ensures !IsWizard(trick[i].card) {
        assert trick[i].card == Jester;
      }
    }
  }

  /** No Wizard, a trump suit set and some trump card played: the winner
      played a trump card at least as high as every other trump card. */
  lemma {:induction false} TrumpWins(trick: seq<Entry>, t: Suit)
    requires forall i :: 0 <= i < |trick| ==> trick[i].card != Wizard
    requires HasSuit(trick, t)
    ensures WinningPlay(trick, Some(t)).Some?
    ensures var k := WinningPlay(trick, Some(t)).value;
            k < |trick| && trick[k].card.Standard? && trick[k].card.suit == t &&
            forall i :: 0 <= i < |trick| && SuitOf(trick[i].card) == Some(t) ==>
              trick[i].card.value <= trick[k].card.value
  {
    NoWizardFound(trick);
    var i :| 0 <= i < |trick| && SuitOf(trick[i].card) == Some(t);
    assert !AllJesters(trick) by {
      assert trick[i].card != Jester;
    }
  }

  /** No Wizard and no trump card: unless every card is a Jester, the
      winner played the highest card of the led suit, the suit of the
      first Standard card of the trick. */
  lemma {:induction false} LedSuitWins(trick: seq<Entry>, trump: Option<Suit>)
    requires forall i :: 0 <= i < |trick| ==> trick[i].card != Wizard
    requires !AllJesters(trick)
    requires trump.None? || !HasSuit(trick, trump.value)
    ensures FirstStandardSuit(trick).Some? && WinningPlay(trick, trump).Some?
    ensures var led := FirstStandardSuit(trick).value;
            var k := WinningPlay(trick, trump).value;
            k < |trick| && trick[k].card.Standard? && trick[k].card.suit == led &&
            forall i :: 0 <= i < |trick| && SuitOf(trick[i].card) == Some(led) ==>
              trick[i].card.value <= trick[k].card.value
  {
    NoWizardFound(trick);
    FirstStandardSuitIsFirst(trick);
  }

  lemma NoWizardFound(trick: seq<Entry>)
    requires forall i :: 0 <= i < |trick| ==> trick[i].card != Wizard
    ensures FirstWhere(trick, IsWizard).None?
  {
    forall i | 0 <= i < |trick| ensures !IsWizard(trick[i].card) {
    }
  }

  /** A Jester takes a trick only when every card of it is a Jester. */
  lemma {:induction false} JesterWinsOnlyAllJesters(trick: seq<Entry>, trump: Option<Suit>)
    requires WinningPlay(trick, trump).Some?
    requires trick[WinningPlay(trick, trump).value].card == Jester
    ensures AllJesters(trick)
  {

  }

  /** Play x is the card its player chose, looking at the hand it held
      before the trick and at the plays before it, and it is legal for
      that hand and the led suit so far. */
  predicate LegalNext(trick: seq<Entry>, hands: map<PlayerId, seq<Card>>,
                      trump: Option<Suit>, decide: CardStrategy, x: Entry)
  {
    var led := FirstStandardSuit(trick);
    x.player in hands &&
    x.card == decide(CardRequest(x.player, hands[x.player], trick, led, trump)) &&
    x.card in ValidCards(hands[x.player], trick, led)
  }

  /** Every play of the trick is a legal next play after those before it. */
  predicate LegalPlays(trick: seq<Entry>, hands: map<PlayerId, seq<Card>>,
                       trump: Option<Suit>, decide: CardStrategy)
    decreases |trick|
  {
    trick == [] ||
    (LegalPlays(trick[..|trick| - 1], hands, trump, decide) &&
     LegalNext(trick[..|trick| - 1], hands, trump, decide, trick[|trick| - 1]))
  }

  /** The plays of a legal trick, one at a time: play i was legal after
      the i plays before it. */
  lemma {:induction false} LegalPlaysAt(trick: seq<Entry>, hands: map<PlayerId, seq<Card>>,
                                        trump: Option<Suit>, decide: CardStrategy, i: nat)
    requires LegalPlays(trick, hands, trump, decide) && i < |trick|
    ensures LegalNext(trick[..i], hands, trump, decide, trick[i])
    decreases |trick|
  {
    var front := trick[..|trick| - 1];
    if i < |trick| - 1 {
      LegalPlaysAt(front, hands, trump, decide, i);
      assert front[..i] == trick[..i];
    }
  }

  /** Playing a new player's card and then writing the same entry again
      leaves one entry, at the end. */
  lemma PutAgain(trick: seq<Entry>, p: PlayerId, c: Card)
    requires p !in PlayersOf(trick)
    ensures Put(Put(trick, p, c), p, c) == trick + [Entry(p, c)]
  {
    var t := trick + [Entry(p, c)];
    assert PlayersOf(t)[|trick|] == p;
    assert p !in PlayersOf(t)[..|trick|] by {
      assert PlayersOf(t)[..|trick|] == PlayersOf(trick);
    }
    var k := IndexOf(PlayersOf(t), p);
    assert k == |trick|;
    assert t[k := Entry(p, c)] == t;
  }

  /** A legal trick stays legal when a legal next play is added. */
  lemma LegalPlaysAppend(trick: seq<Entry>, hands: map<PlayerId, seq<Card>>,
                         trump: Option<Suit>, decide: CardStrategy, x: Entry)
    requires LegalPlays(trick, hands, trump, decide)
    requires LegalNext(trick, hands, trump, decide, x)
    ensures LegalPlays(trick + [x], hands, trump, decide)
  {
    assert (trick + [x])[..|trick|] == trick;
  }

  /** Hands that were `start` before the turns of players[..i], each of
      which took trick[j].card from the hand of players[j]. */
  ghost predicate Taken(players: seq<PlayerId>, i: nat, start: map<PlayerId, seq<Card>>,
                        hands: map<PlayerId, seq<Card>>, trick: seq<Entry>)
  {
    i <= |players| && i <= |trick| && hands.Keys == start.Keys &&
    (forall j :: 0 <= j < i ==>
       (players[j] in start && trick[j].card in start[players[j]] &&
        hands[players[j]] == RemoveFirst(start[players[j]], trick[j].card))) &&
    (forall p :: p in hands && p !in players[..i] ==> hands[p] == start[p])
  }

  lemma TakenStep(players: seq<PlayerId>, i: nat, start: map<PlayerId, seq<Card>>,
                  hands: map<PlayerId, seq<Card>>, trick: seq<Entry>, card: Card)
    requires Distinct(players) && i < |players| && players[i] in hands && i == |trick|
    requires Taken(players, i, start, hands, trick)
    requires card in hands[players[i]]
    ensures hands[players[i]] == start[players[i]]
    ensures Taken(players, i + 1, start, hands[players[i] := RemoveFirst(hands[players[i]], card)],
                  trick + [Entry(players[i], card)])
  {
    var p := players[i];
    assert p !in players[..i];
    var after := hands[p := RemoveFirst(hands[p], card)];
    var t := trick + [Entry(p, card)];
    forall j | 0 <= j < i + 1
      ensures players[j] in start && t[j].card in start[players[j]]
      ensures after[players[j]] == RemoveFirst(start[players[j]], t[j].card)
    {
      if j < i {
        assert players[j] != p;
        assert t[j] == trick[j];
      }
    }
    assert players[..i + 1] == players[..i] + [p];
    forall q | q in after && q !in players[..i + 1] ensures after[q] == start[q] {
      assert q != p && q !in players[..i];
    }
  }

  /** What the first i turns of a trick have done to hands that were
      `start` when it began: players[..i] have played, in that order, each
      play was legal, each card was taken from its player's hand, and the
      hands of the other players are untouched. */
  ghost predicate Played(players: seq<PlayerId>, i: nat, start: map<PlayerId, seq<Card>>,
                         hands: map<PlayerId, seq<Card>>, trick: seq<Entry>,
                         trump: Option<Suit>, decide: CardStrategy)
  {
    Taken(players, i, start, hands, trick) &&
    PlayersOf(trick) == players[..i] &&
    LegalPlays(trick, start, trump, decide)
  }

  /** One more turn, by players[i], of a card that was legal for it. */
  lemma PlayedStep(players: seq<PlayerId>, i: nat, start: map<PlayerId, seq<Card>>,
                   hands: map<PlayerId, seq<Card>>, trick: seq<Entry>,
                   trump: Option<Suit>, decide: CardStrategy, card: Card)
    requires Distinct(players) && i < |players| && players[i] in hands
    requires Played(players, i, start, hands, trick, trump, decide)
    requires LegalNext(trick, hands, trump, decide, Entry(players[i], card))
    ensures hands[players[i]] == start[players[i]]
    ensures Played(players, i + 1, start, hands[players[i] := RemoveFirst(hands[players[i]], card)],
                   trick + [Entry(players[i], card)], trump, decide)
  {
    var p := players[i];
    ValidCardsRule(hands[p], trick, FirstStandardSuit(trick));
    TakenStep(players, i, start, hands, trick, card);
    LegalPlaysAppend(trick, start, trump, decide, Entry(p, card));
    PlayersOfAppend(trick, Entry(p, card));
    assert players[..i + 1] == players[..i] + [p];
  }

  lemma PlayersOfAppend(trick: seq<Entry>, x: Entry)
    ensures PlayersOf(trick + [x]) == PlayersOf(trick) + [x.player]
  {
    assert (trick + [x])[..|trick|] == trick;
  }

  /** After a whole trick every seated player holds one card fewer, and
      the hands of everyone else are as they were. */
  lemma PlayedShrinks(players: seq<PlayerId>, start: map<PlayerId, seq<Card>>,
                      hands: map<PlayerId, seq<Card>>, trick: seq<Entry>,
                      trump: Option<Suit>, decide: CardStrategy)
    requires Played(players, |players|, start, hands, trick, trump, decide)
    ensures hands.Keys == start.Keys
    ensures forall p :: p in players ==> p in start && |hands[p]| == |start[p]| - 1
    ensures forall p :: p in hands && p !in players ==> hands[p] == start[p]
  {
    forall p | p in players ensures p in start && |hands[p]| == |start[p]| - 1 {
      var j := IndexOf(players, p);
    }
    assert players[..|players|] == players;
  }

  class Trick {
    const players: seq<PlayerId>
    /** The round's hands; Turn.play removes the played card in place. */
    var hands: map<PlayerId, seq<Card>>
    const trump: Option<Suit>
    var trickCards: seq<Entry>
    var trickSuit: Option<Suit>

    constructor (players: seq<PlayerId>, hands: map<PlayerId, seq<Card>>, trump: Option<Suit>)
      ensures this.players == players && this.hands == hands && this.trump == trump
      ensures trickCards == [] && trickSuit == None
    {
      this.players := players;
      this.hands := hands;
      this.trump := trump;
      trickCards := [];
      trickSuit := None;
    }

    /** The card player p chooses, seeing its hand, the plays so far and
        the led suit. */
    ghost function Choice(p: PlayerId, hands: map<PlayerId, seq<Card>>, trick: seq<Entry>,
                          decide: CardStrategy): Card
      requires p in hands
    {
      decide(CardRequest(p, hands[p], trick, FirstStandardSuit(trick), trump))
    }

    /** The body of the loop of `Trick.play` for player p, who has not
        played yet: a Turn on the player's own hand and the shared trick,
        then the trick's own record of the card and of the led suit. */
    method PlayTurn(p: PlayerId, decide: CardStrategy) returns (r: Result<Card>)
      requires p in hands && p !in PlayersOf(trickCards)
      requires trickSuit == FirstStandardSuit(trickCards)
      modifies this
      ensures r.Ok? <==> LegalNext(old(trickCards), old(hands), trump, decide,
                                   Entry(p, Choice(p, old(hands), old(trickCards), decide)))
      ensures r.Ok? ==> r.value == Choice(p, old(hands), old(trickCards), decide)
      ensures r.Ok? ==> hands == old(hands)[p := RemoveFirst(old(hands)[p], r.value)]
      ensures r.Ok? ==> trickCards == old(trickCards) + [Entry(p, r.value)]
      ensures r.Ok? ==> trickSuit == FirstStandardSuit(trickCards)
      ensures r.Err? ==> r.failure == IllegalCardPlayed(p) &&
                         hands == old(hands) && trickCards == old(trickCards) && trickSuit == old(trickSuit)
    {
      var start, trick, led := hands, trickCards, trickSuit;
      ValidCardsRule(start[p], trick, led);
      var turn := new Turn(p, start[p], trick, led, trump);
      var played := turn.Play(decide);
      if played.Err? {
        return Err(played.failure);
      }
      var card, hand, cards := played.value, turn.hand, turn.trickCards;
      PutAgain(trick, p, card);
      FirstStandardSuitAppend(trick, Entry(p, card));
      // The turn changed the shared hand list and trick dictionary.
      hands := start[p := hand];
      trickCards := Put(cards, p, card);
      trickSuit := NextLedSuit(led, card);
      return Ok(card);
    }

    /** `Trick.play`: one Turn per player in the order of `players`, then
        the winner. A rejected card ends the trick with that failure, after
        the turns before it have played. */
    method Play(decide: CardStrategy) returns (r: Result<PlayerId>)
      requires Distinct(players)
      requires forall p :: p in players ==> p in hands
      requires trickCards == [] && trickSuit == None
      modifies this
      ensures r.Ok? ==> Played(players, |players|, old(hands), hands, trickCards, trump, decide)
      ensures r.Ok? ==> trickSuit == FirstStandardSuit(trickCards)
      ensures r.Ok? ==> DetermineWinner(trickCards, trump) == Some(r.value) && r.value in players
      ensures r.Err? && players == [] ==> r.failure == NoPlayers
      ensures r.Err? && players != [] ==>
                r.failure.IllegalCardPlayed? && r.failure.player in players &&
                var i := IndexOf(players, r.failure.player);
                Played(players, i, old(hands), hands, trickCards, trump, decide) &&
                !LegalNext(trickCards, hands, trump, decide,
                           Entry(players[i], Choice(players[i], hands, trickCards, decide)))
    {
      var i := 0;
      while i < |players|
        invariant Played(players, i, old(hands), hands, trickCards, trump, decide)
        invariant trickSuit == FirstStandardSuit(trickCards)
      {
        var p := players[i];
        assert p !in PlayersOf(trickCards) by {
          assert p !in players[..i];
        }
        ghost var before := hands;
        ghost var trick := trickCards;
        var played := PlayTurn(p, decide);
        if played.Err? {
          assert IndexOf(players, p) == i by {
            DistinctIndex(players, i);
          }
          return Err(played.failure);
        }
        PlayedStep(players, i, old(hands), before, trick, trump, decide, played.value);
        i := i + 1;
      }
      assert players[..i] == players;
      var winner := DetermineWinner(trickCards, trump);
      if winner.None? {
        return Err(NoPlayers);
      }
      return Ok(winner.value);
    }
  }
}
