/** The Round of core/round.py: deal, flip a trump card, collect bids, play
    `roundNumber` tricks and score them. */
module Rounds {
  import opened Outcomes
  import opened Cards
  import opened Collections
  import opened Players
  import opened CardFactory
  import opened Decks
  import opened Turns
  import opened Tricks

  function Abs(x: int): nat {
    if x < 0 then -x else x
  }

  /** The score of one player for one round: 20 plus 10 per trick bid when
      the bid is met, and minus 10 per trick of difference otherwise. */
  function Score(bid: int, won: nat): (s: int)
    ensures s % 10 == 0
    ensures s > 0 <==> bid == won
    ensures bid == won ==> s >= 20 && s == 20 + 10 * won
    ensures bid != won ==> s <= -10 && (s + 10 * Abs(bid - won) == 0)
  {
    if bid == won then 20 + bid * 10 else -10 * Abs(bid - won)
  }

  /** The tricks won by `players`, added up. */
  function SumWon(players: seq<PlayerId>, won: map<PlayerId, nat>): nat
    requires forall p :: p in players ==> p in won
  {
    if players == [] then 0
    else SumWon(players[..|players| - 1], won) + won[players[|players| - 1]]
  }

  /** One more trick for a seated player adds one to the total. */
  lemma {:induction false} SumWonIncrement(players: seq<PlayerId>, won: map<PlayerId, nat>, w: PlayerId)
    requires Distinct(players) && w in players
    requires forall p :: p in players ==> p in won
    ensures SumWon(players, won[w := won[w] + 1]) == SumWon(players, won) + 1
  {
    var n := |players|;
    var front := players[..n - 1];
    var after := won[w := won[w] + 1];
    if players[n - 1] == w {
      assert w !in front;
      SumWonUnchanged(front, won, after);
    } else {
      assert w in front;
      SumWonIncrement(front, won, w);
    }
  }

  lemma {:induction false} SumWonUnchanged(players: seq<PlayerId>, won: map<PlayerId, nat>,
                                          other: map<PlayerId, nat>)
    requires forall p :: p in players ==> p in won && p in other && won[p] == other[p]
    ensures SumWon(players, won) == SumWon(players, other)
  {
    if players != [] {
      SumWonUnchanged(players[..|players| - 1], won, other);
    }
  }

  /** Tallies added seat by seat add up. */
  lemma {:induction false} SumWonPlus(players: seq<PlayerId>, a: map<PlayerId, nat>, b: map<PlayerId, nat>,
                                     c: map<PlayerId, nat>)
    requires forall p :: p in players ==> p in a && p in b && p in c && c[p] == a[p] + b[p]
    ensures SumWon(players, c) == SumWon(players, a) + SumWon(players, b)
  {
    if players != [] {
      SumWonPlus(players[..|players| - 1], a, b, c);
    }
  }

  /** A fresh tally: every player has won no tricks. */
  lemma {:induction false} SumWonZero(players: seq<PlayerId>, won: map<PlayerId, nat>)
    requires forall p :: p in players ==> p in won && won[p] == 0
    ensures SumWon(players, won) == 0
  {
    if players != [] {
      SumWonZero(players[..|players| - 1], won);
    }
  }

  /** How many of the tricks won by `winners`, in play order, went to p. */
  function Count(winners: seq<PlayerId>, p: PlayerId): (n: nat)
    ensures n <= |winners|
    ensures n == 0 <==> p !in winners
  {
    if winners == [] then 0
    else
      var front := winners[..|winners| - 1];
      assert p in winners <==> p in front || winners[|winners| - 1] == p;
      Count(front, p) + (if winners[|winners| - 1] == p then 1 else 0)
  }

  /** One more trick adds one to its winner's count and nothing to anyone
      else's. */
  lemma CountStep(winners: seq<PlayerId>, w: PlayerId, p: PlayerId)
    ensures Count(winners + [w], p) == Count(winners, p) + (if w == p then 1 else 0)
  {
    assert (winners + [w])[..|winners|] == winners;
  }

  /** The tally of `won` that a sequence of trick winners gives each seat. */
  function Tally(players: seq<PlayerId>, winners: seq<PlayerId>): (t: map<PlayerId, nat>)
    ensures t.Keys == set p | p in players
  {
    map p | p in players :: Count(winners, p)
  }

  /** Every trick is counted for exactly one seat: over distinct seats who
      won all the tricks, the tally adds up to the number of tricks. */
  lemma {:induction false} CountsAddUp(players: seq<PlayerId>, winners: seq<PlayerId>)
    requires Distinct(players)
    requires forall i :: 0 <= i < |winners| ==> winners[i] in players
    ensures SumWon(players, Tally(players, winners)) == |winners|
  {
    if winners == [] {
      SumWonZero(players, Tally(players, winners));
    } else {
      var front, w := winners[..|winners| - 1], winners[|winners| - 1];
      assert winners == front + [w];
      CountsAddUp(players, front);
      var before := Tally(players, front);
      forall p | p in players
        ensures Tally(players, winners)[p] == before[w := before[w] + 1][p]
      {
        CountStep(front, w, p);
      }
      SumWonIncrement(players, before, w);
      SumWonUnchanged(players, Tally(players, winners), before[w := before[w] + 1]);
    }
  }

  /** `won` is what `start` was, plus the tricks of `winners`. */
  ghost predicate Tallied(players: seq<PlayerId>, start: map<PlayerId, nat>,
                          won: map<PlayerId, nat>, winners: seq<PlayerId>)
  {
    forall p {:trigger Count(winners, p)} :: p in players ==> p in start && p in won && won[p] == start[p] + Count(winners, p)
  }

  lemma TalliedStep(players: seq<PlayerId>, start: map<PlayerId, nat>, won: map<PlayerId, nat>,
                    after: map<PlayerId, nat>, winners: seq<PlayerId>, w: PlayerId)
    requires Tallied(players, start, won, winners) && w in won && after == won[w := won[w] + 1]
    ensures Tallied(players, start, after, winners + [w])
  {
    forall p | p in players
      ensures p in start && p in won && after[p] == start[p] + Count(winners + [w], p)
    {
      CountStep(winners, w, p);
    }
  }

  /** A tally grown by the wins of seated players grows by their number. */
  lemma TalliedSum(players: seq<PlayerId>, start: map<PlayerId, nat>, won: map<PlayerId, nat>,
                   winners: seq<PlayerId>)
    requires Distinct(players) && Tallied(players, start, won, winners)
    requires forall p :: p in players ==> p in start && p in won
    requires forall i :: 0 <= i < |winners| ==> winners[i] in players
    ensures SumWon(players, won) == SumWon(players, start) + |winners|
  {
    CountsAddUp(players, winners);
    SumWonPlus(players, start, Tally(players, winners), won);
  }

  /** A tally that started at zero for every seat is the tally of its
      winners. */
  lemma FreshTally(players: seq<PlayerId>, start: map<PlayerId, nat>, won: map<PlayerId, nat>,
                   winners: seq<PlayerId>)
    requires forall p :: p in players ==> p in start && start[p] == 0
    requires forall p :: p in players ==> p in won && won[p] == start[p] + Count(winners, p)
    requires won.Keys == set p | p in players
    ensures won == Tally(players, winners)
  {
  }

  /** `winners[i]`, a seated player, won the trick `tricks[i]`. */
  predicate WonTricks(players: seq<PlayerId>, winners: seq<PlayerId>, tricks: seq<seq<Entry>>, trump: Option<Suit>) {
    |winners| == |tricks| &&
    forall i :: 0 <= i < |winners| ==>
      winners[i] in players && DetermineWinner(tricks[i], trump) == Some(winners[i])
  }

  lemma WonTricksAppend(players: seq<PlayerId>, winners: seq<PlayerId>, tricks: seq<seq<Entry>>,
                        trump: Option<Suit>, w: PlayerId, trick: seq<Entry>)
    requires WonTricks(players, winners, tricks, trump)
    requires w in players && DetermineWinner(trick, trump) == Some(w)
    ensures WonTricks(players, winners + [w], tricks + [trick], trump)
  {
  }

  /** What the game-state snapshot tells a player who is asked to bid,
      reduced to what the round knows. */
  datatype BidRequest = BidRequest(player: PlayerId, roundNumber: nat, hand: seq<Card>,
                                   trump: Option<Suit>, bets: map<PlayerId, int>)

  /** A player's bid, opaque to the engine. */
  type BidStrategy = BidRequest -> int

  /** The bets after `ps` have bid in order, each seeing the bets made
      before it. */
  function Bidding(ps: seq<PlayerId>, bets: map<PlayerId, int>, roundNumber: nat,
                   hands: map<PlayerId, seq<Card>>, trump: Option<Suit>, bid: BidStrategy): map<PlayerId, int>
    requires forall p :: p in ps ==> p in hands
    decreases |ps|
  {
    if ps == [] then bets
    else
      var b := bid(BidRequest(ps[0], roundNumber, hands[ps[0]], trump, bets));
      Bidding(ps[1..], bets[ps[0] := b], roundNumber, hands, trump, bid)
  }

  /** Bidding adds a bet for each bidder and leaves the others' bets alone. */
  lemma {:induction false} BiddingKeys(ps: seq<PlayerId>, bets: map<PlayerId, int>, roundNumber: nat,
                                      hands: map<PlayerId, seq<Card>>, trump: Option<Suit>, bid: BidStrategy)
    requires forall p :: p in ps ==> p in hands
    ensures Bidding(ps, bets, roundNumber, hands, trump, bid).Keys == bets.Keys + set p | p in ps
    ensures forall p :: p in bets && p !in ps ==> Bidding(ps, bets, roundNumber, hands, trump, bid)[p] == bets[p]
    decreases |ps|
  {
    if ps != [] {
      var b := bid(BidRequest(ps[0], roundNumber, hands[ps[0]], trump, bets));
      BiddingKeys(ps[1..], bets[ps[0] := b], roundNumber, hands, trump, bid);
      assert (set p | p in ps) == {ps[0]} + set p | p in ps[1..];
    }
  }

  /** Each seat's recorded bet is exactly what it answered, when asked
      after the seats before it had bid. */
  lemma {:induction false} BiddingRecords(ps: seq<PlayerId>, bets: map<PlayerId, int>, roundNumber: nat,
                                         hands: map<PlayerId, seq<Card>>, trump: Option<Suit>,
                                         bid: BidStrategy, i: nat)
    requires Distinct(ps) && i < |ps|
    requires forall p :: p in ps ==> p in hands
    ensures ps[i] in Bidding(ps, bets, roundNumber, hands, trump, bid)
    ensures var before := Bidding(ps[..i], bets, roundNumber, hands, trump, bid);
            Bidding(ps, bets, roundNumber, hands, trump, bid)[ps[i]] ==
            bid(BidRequest(ps[i], roundNumber, hands[ps[i]], trump, before))
    decreases |ps|
  {
    var b := bid(BidRequest(ps[0], roundNumber, hands[ps[0]], trump, bets));
    var next := bets[ps[0] := b];
    var rest := ps[1..];
    BiddingKeys(ps, bets, roundNumber, hands, trump, bid);
    if i == 0 {
      assert ps[0] !in rest;
      BiddingKeys(rest, next, roundNumber, hands, trump, bid);
    } else {
      assert Distinct(rest);
      BiddingRecords(rest, next, roundNumber, hands, trump, bid, i - 1);
      assert ps[..i][1..] == rest[..i - 1];
      assert rest[i - 1] == ps[i];
    }
  }

  /** The scores of `ps` after they have been added into `scores`. */
  function ScoresOf(ps: seq<PlayerId>, bets: map<PlayerId, int>, won: map<PlayerId, nat>): (s: map<PlayerId, int>)
    requires forall p :: p in ps ==> p in bets && p in won
    ensures s.Keys == set p | p in ps
  {
    map p | p in ps :: Score(bets[p], won[p])
  }

  /** The card flipped for trump, as a list of at most one card. */
  function Flipped(trumpCard: Option<Card>): seq<Card> {
    if trumpCard.Some? then [trumpCard.value] else []
  }

  /** What the deal of a round leaves: the hands, the trump card and the
      rest of the deck. */
  datatype Dealt = Dealt(hands: map<PlayerId, seq<Card>>, trumpCard: Option<Card>, stock: seq<Card>)

  /** The deal of `Round.__init__`: a new deck of the 60 `cards`, shuffled
      by its constructor and once more, deals `roundNumber` cards to each
      seat and then flips a trump card if any card is left. Too few cards
      for the deal is an error. */
  method DealRound(cards: seq<Card>, roundNumber: nat, players: seq<PlayerId>, rng1: Rng, rng2: Rng)
    returns (r: Result<Dealt>)
    requires |cards| == 60 && Distinct(players)
    ensures r.Err? <==> 60 < |players| * roundNumber
    ensures r.Err? ==> r.failure == InsufficientCards
    ensures r.Ok? ==> forall p :: p in r.value.hands <==> p in players
    ensures r.Ok? ==> forall p :: p in players ==> |r.value.hands[p]| == roundNumber
    ensures r.Ok? ==> (r.value.trumpCard.Some? <==> |players| * roundNumber < 60)
    ensures r.Ok? ==>
              multiset(JoinHands(players, r.value.hands) + Flipped(r.value.trumpCard) + r.value.stock) ==
              multiset(cards)
  {
    var deck := ShuffledDeck(cards, rng1, rng2);
    ghost var shuffled := deck.cards;
    var dealt := DealHands(deck, players, roundNumber);
    if dealt.Err? {
      return Err(dealt.failure);
    }
    var hands := dealt.value;
    ghost var left := deck.cards;
    var trumpCard := FlipTrump(deck);
    Regroup(JoinHands(players, hands), Flipped(trumpCard), deck.cards, left);
    return Ok(Dealt(hands, trumpCard, deck.cards));
  }

  /** `Deck(create_wizard_cards()).shuffle()`: a new deck shuffled by its
      constructor and once more. */
  method ShuffledDeck(cards: seq<Card>, rng1: Rng, rng2: Rng) returns (deck: Deck)
    ensures fresh(deck)
    ensures |deck.cards| == |cards| && multiset(deck.cards) == multiset(cards)
  {
    deck := new Deck(cards, rng1);
    deck.Shuffle(rng2);
  }

  lemma Regroup(a: seq<Card>, b: seq<Card>, c: seq<Card>, d: seq<Card>)
    requires b + c == d
    ensures a + b + c == a + d
  {
  }

  /** The trump card of `Round.__init__`: the top card, drawn only when a
      card is left. */
  method FlipTrump(deck: Deck) returns (t: Option<Card>)
    modifies deck
    ensures t.Some? <==> |old(deck.cards)| > 0
    ensures Flipped(t) + deck.cards == old(deck.cards)
  {
    t := None;
    if deck.Remaining() > 0 {
      var top := deck.DrawOne();
      t := Some(top.value);
    }
  }

  /** `deck.deal`, with the slices of the deal summed up as what the
      round needs: a hand of k cards per seat taken from the top. */
  method DealHands(deck: Deck, players: seq<PlayerId>, k: nat) returns (r: Result<map<PlayerId, seq<Card>>>)
    requires Distinct(players)
    modifies deck
    ensures r.Ok? <==> |players| * k <= |old(deck.cards)|
    ensures r.Err? ==> r.failure == InsufficientCards
    ensures r.Ok? ==> forall p :: p in r.value <==> p in players
    ensures r.Ok? ==> forall p :: p in players ==> |r.value[p]| == k
    ensures r.Ok? ==> deck.cards == old(deck.cards)[|players| * k..]
    ensures r.Ok? ==> JoinHands(players, r.value) + deck.cards == old(deck.cards)
  {
    ghost var start := deck.cards;
    r := deck.Deal(players, k);
    if r.Ok? {
      HandSizes(players, r.value, start, k);
    }
  }

  /** The trick of `play_trick`, played on a copy of the round's hands;
      returns the winner, the hands afterwards and the cards played. */
  method RunTrick(players: seq<PlayerId>, hands: map<PlayerId, seq<Card>>, trump: Option<Suit>,
                  decide: CardStrategy)
    returns (winner: Result<PlayerId>, after: map<PlayerId, seq<Card>>, cards: seq<Entry>)
    requires Distinct(players) && players != []
    requires forall p :: p in players ==> p in hands
    ensures after.Keys == hands.Keys
    ensures winner.Ok? ==> Played(players, |players|, hands, after, cards, trump, decide)
    ensures winner.Ok? ==> forall p :: p in players ==> |after[p]| + 1 == |hands[p]|
    ensures winner.Ok? ==> PlayersOf(cards) == players
    ensures winner.Ok? ==> winner.value in players && DetermineWinner(cards, trump) == Some(winner.value)
    ensures winner.Err? ==> winner.failure.IllegalCardPlayed? && winner.failure.player in players
  {
    var trick := new Trick(players, hands, trump);
    winner := trick.Play(decide);
    cards, after := trick.trickCards, trick.hands;
    if winner.Ok? {
      PlayedShrinks(players, hands, after, cards, trump, decide);
      assert players[..|players|] == players;
    }
  }

  class Round {
    const players: seq<PlayerId>
    const roundNumber: nat
    /** The cards left in the deck after dealing and flipping the trump. */
    var stock: seq<Card>
    var hands: map<PlayerId, seq<Card>>
    var trumpCard: Option<Card>
    var bets: map<PlayerId, int>
    var won: map<PlayerId, nat>
    /** Recorded after each trick and never read, as in the source. */
    var leader: PlayerId
    /** The cards of the trick played last, in play order. */
    var currentTrick: seq<Entry>

    /** What every round keeps: distinct seats, one hand and one tally
        per seat. */
    ghost predicate Valid()
      reads this
    {
      Distinct(players) && players != [] &&
      hands.Keys == won.Keys == set p | p in players
    }

    constructor (players: seq<PlayerId>, roundNumber: nat, stock: seq<Card>,
                 hands: map<PlayerId, seq<Card>>, trumpCard: Option<Card>)
      requires players != []
      ensures this.players == players && this.roundNumber == roundNumber
      ensures this.stock == stock && this.hands == hands && this.trumpCard == trumpCard
      ensures bets == map[] && won == (map p | p in players :: 0)
      ensures leader == players[0] && currentTrick == []
    {
      this.players := players;
      this.roundNumber := roundNumber;
      this.stock := stock;
      this.hands := hands;
      this.trumpCard := trumpCard;
      bets := map[];
      won := map p | p in players :: 0;
      leader := players[0];
      currentTrick := [];
    }

    /** `Round(round_number, players, ...)`: deals as `DealRound` does, and
        an empty table fails because its first seat cannot be read. */
    static method New(roundNumber: nat, players: seq<PlayerId>, rng1: Rng, rng2: Rng) returns (r: Result<Round>)
      requires Distinct(players)
      ensures r.Err? <==> 60 < |players| * roundNumber || players == []
      ensures r.Err? ==> r.failure == (if 60 < |players| * roundNumber then InsufficientCards else NoPlayers)
      ensures r.Ok? ==> fresh(r.value) && r.value.Valid()
      ensures r.Ok? ==> r.value.players == players && r.value.roundNumber == roundNumber
      ensures r.Ok? ==> forall p :: p in players ==> |r.value.hands[p]| == roundNumber
      ensures r.Ok? ==> (r.value.trumpCard.Some? <==> |players| * roundNumber < 60)
      ensures r.Ok? ==> r.value.bets == map[] && r.value.leader == players[0] && r.value.currentTrick == []
      ensures r.Ok? ==> forall p :: p in players ==> r.value.won[p] == 0
      ensures r.Ok? ==>
                multiset(JoinHands(players, r.value.hands) + Flipped(r.value.trumpCard) + r.value.stock) ==
                multiset(CreateWizardCards())
    {
      var dealt := DealRound(CreateWizardCards(), roundNumber, players, rng1, rng2);
      if dealt.Err? {
        return Err(dealt.failure);
      }
      if players == [] {
        return Err(NoPlayers);
      }
      var d := dealt.value;
      var round := new Round(players, roundNumber, d.stock, d.hands, d.trumpCard);
      return Ok(round);
    }

    /** `trump_suit`: the suit of the trump card, absent when there is no
        trump card or it is a Wizard or Jester. */
    function TrumpSuit(): (s: Option<Suit>)
      reads this
      ensures s.Some? <==> trumpCard.Some? && trumpCard.value.Standard?
      ensures s.Some? ==> s.value == trumpCard.value.suit
    {
      if trumpCard.Some? then SuitOf(trumpCard.value) else None
    }

    /** `run_bidding_phase`: each seat in order is asked for a bid, which is
        stored as given. */
    method RunBiddingPhase(bid: BidStrategy)
      requires Valid()
      modifies this
      ensures Valid()
      ensures hands == old(hands) && won == old(won) && trumpCard == old(trumpCard)
      ensures stock == old(stock) && leader == old(leader) && currentTrick == old(currentTrick)
      ensures bets == Bidding(players, old(bets), roundNumber, hands, TrumpSuit(), bid)
    {
      var i := 0;
      while i < |players|
        invariant 0 <= i <= |players|
        invariant Valid()
        invariant hands == old(hands) && won == old(won) && trumpCard == old(trumpCard)
        invariant stock == old(stock) && leader == old(leader) && currentTrick == old(currentTrick)
        invariant Bidding(players, old(bets), roundNumber, hands, TrumpSuit(), bid) ==
                  Bidding(players[i..], bets, roundNumber, hands, TrumpSuit(), bid)
      {
        var p := players[i];
        var decision := bid(BidRequest(p, roundNumber, hands[p], TrumpSuit(), bets));
        assert players[i..][1..] == players[i + 1..];
        bets := bets[p := decision];
        i := i + 1;
      }
    }

    /** `play_trick`: a trick over the seats in their fixed order, whoever
        won the last trick, on the round's own hands (see `RunTrick` for
        what each turn of it did). A rejected card ends the trick, and the
        cards played before it stay played. */
    method PlayTrick(decide: CardStrategy) returns (r: Result<PlayerId>)
      requires Valid()
      modifies this
      ensures Valid()
      ensures bets == old(bets) && won == old(won) && trumpCard == old(trumpCard)
      ensures stock == old(stock) && leader == old(leader)
      ensures r.Ok? ==> forall p :: p in players ==> |hands[p]| + 1 == |old(hands)[p]|
      ensures r.Ok? ==> r.value in players && DetermineWinner(currentTrick, TrumpSuit()) == Some(r.value)
      ensures r.Err? ==> r.failure.IllegalCardPlayed? && r.failure.player in players
    {
      var winner, after, cards := RunTrick(players, hands, TrumpSuit(), decide);
      // The trick changed the round's own hands.
      hands := after;
      currentTrick := cards;
      r := winner;
    }

    /** `calculate_scores`: every seat's score for its bet and the tricks
        it won. A seat without a bet is an error. */
    method CalculateScores() returns (r: Result<map<PlayerId, int>>)
      requires Valid()
      ensures r.Ok? <==> forall p :: p in players ==> p in bets
      ensures r.Err? ==> r.failure == PlayerNotFound
      ensures r.Ok? ==> r.value == ScoresOf(players, bets, won)
    {
      var ps, tally := players, won;
      assert forall p :: p in ps ==> p in tally;
      var scores: map<PlayerId, int> := map p | p in ps :: 0;
      var i := 0;
      while i < |ps|
        invariant 0 <= i <= |ps|
        invariant forall j :: 0 <= j < i ==> ps[j] in bets
        invariant forall p :: p in scores <==> p in ps
        invariant forall j :: 0 <= j < i ==> scores[ps[j]] == Score(bets[ps[j]], tally[ps[j]])
        invariant forall j :: i <= j < |ps| ==> scores[ps[j]] == 0
      {
        var p := ps[i];
        if p !in bets {
          return Err(PlayerNotFound);
        }
        scores := scores[p := scores[p] + Score(bets[p], tally[p])];
        i := i + 1;
      }
      assert forall p :: p in ps ==> p in bets && scores[p] == Score(bets[p], tally[p]) by {
        forall p | p in ps ensures p in bets && scores[p] == Score(bets[p], tally[p]) {
          var j := IndexOf(ps, p);
        }
      }
      return Ok(scores);
    }

    /** One more trick for `w`, who is recorded as the next leader. */
    method RecordWin(w: PlayerId)
      requires Valid() && w in players
      modifies this
      ensures Valid()
      ensures bets == old(bets) && trumpCard == old(trumpCard) && stock == old(stock) && hands == old(hands)
      ensures currentTrick == old(currentTrick)
      ensures won == old(won)[w := old(won)[w] + 1] && leader == w
      ensures SumWon(players, won) == SumWon(players, old(won)) + 1
    {
      SumWonIncrement(players, won, w);
      won := won[w := won[w] + 1];
      leader := w;
    }

    /** One pass of the trick loop of `play`: a trick, then one more
        trick for its winner, who is recorded as the next leader. */
    method PlayAndRecord(decide: CardStrategy, ghost trump: Option<Suit>, ghost startWon: map<PlayerId, nat>,
                         ghost winners: seq<PlayerId>, ghost tricks: seq<seq<Entry>>)
      returns (r: Result<PlayerId>)
      requires Valid() && TrumpSuit() == trump
      requires Tallied(players, startWon, won, winners) && WonTricks(players, winners, tricks, trump)
      modifies this
      ensures Valid() && TrumpSuit() == trump
      ensures bets == old(bets) && trumpCard == old(trumpCard) && stock == old(stock)
      ensures r.Ok? ==> Tallied(players, startWon, won, winners + [r.value])
      ensures r.Ok? ==> WonTricks(players, winners + [r.value], tricks + [currentTrick], trump)
      ensures r.Ok? ==> forall p :: p in players ==> |hands[p]| + 1 == |old(hands)[p]|
      ensures r.Ok? ==> leader in players
      ensures r.Err? ==> r.failure.IllegalCardPlayed? && r.failure.player in players
    {
      r := PlayTrick(decide);
      if r.Ok? {
        WonTricksAppend(players, winners, tricks, trump, r.value, currentTrick);
        ghost var before := won;
        assert r.value in before && Tallied(players, startWon, before, winners);
        RecordWin(r.value);
        assert won == before[r.value := before[r.value] + 1];
        TalliedStep(players, startWon, before, won, winners, r.value);
      }
    }

    /** The trick loop of `play`: `roundNumber` tricks, each adding one to
        its winner's tally, who is recorded as the next leader. `winners`
        and `tricks` are the winners and the cards of the tricks, in play
        order. */
    method PlayTricks(decide: CardStrategy) returns (r: Result<()>, ghost winners: seq<PlayerId>,
                                                     ghost tricks: seq<seq<Entry>>)
      requires Valid()
      modifies this
      ensures Valid()
      ensures bets == old(bets) && trumpCard == old(trumpCard) && stock == old(stock)
      ensures r.Ok? ==> |winners| == roundNumber && WonTricks(players, winners, tricks, TrumpSuit())
      ensures r.Ok? ==> forall p {:trigger Count(winners, p)} :: p in players ==> won[p] == old(won)[p] + Count(winners, p)
      ensures r.Ok? ==> SumWon(players, won) == SumWon(players, old(won)) + roundNumber
      ensures r.Ok? ==> forall p :: p in players ==> |hands[p]| + roundNumber == |old(hands)[p]|
      ensures r.Ok? && roundNumber > 0 ==> leader in players
      ensures r.Err? ==> r.failure.IllegalCardPlayed? && r.failure.player in players
    {
      ghost var start, startWon, trump := hands, won, TrumpSuit();
      winners, tricks := [], [];
      var i := 0;
      while i < roundNumber
        invariant 0 <= i <= roundNumber
        invariant Valid() && TrumpSuit() == trump
        invariant bets == old(bets) && trumpCard == old(trumpCard) && stock == old(stock)
        invariant |winners| == i && WonTricks(players, winners, tricks, trump)
        invariant Tallied(players, startWon, won, winners)
        invariant forall p :: p in players ==> |hands[p]| + i == |start[p]|
        invariant i > 0 ==> leader in players
      {
        var winner := PlayAndRecord(decide, trump, startWon, winners, tricks);
        if winner.Err? {
          return Err(winner.failure), winners, tricks;
        }
        winners, tricks := winners + [winner.value], tricks + [currentTrick];
        i := i + 1;
      }
      TalliedSum(players, startWon, won, winners);
      return Ok(()), winners, tricks;
    }

    /** `play`: bidding, then `roundNumber` tricks in fixed seating order,
        then the scores. */
    method Play(bid: BidStrategy, decide: CardStrategy)
      returns (r: Result<map<PlayerId, int>>, ghost winners: seq<PlayerId>, ghost tricks: seq<seq<Entry>>)
      requires Valid()
      modifies this
      ensures Valid()
      ensures trumpCard == old(trumpCard) && stock == old(stock)
      ensures bets == Bidding(players, old(bets), roundNumber, old(hands), TrumpSuit(), bid)
      ensures r.Ok? ==> |winners| == roundNumber && WonTricks(players, winners, tricks, TrumpSuit())
      ensures r.Ok? ==> forall p {:trigger Count(winners, p)} :: p in players ==> won[p] == old(won)[p] + Count(winners, p)
      ensures r.Ok? ==> SumWon(players, won) == SumWon(players, old(won)) + roundNumber
      ensures r.Ok? ==> forall p :: p in players ==> |hands[p]| + roundNumber == |old(hands)[p]|
      ensures r.Ok? ==> (forall p :: p in players ==> p in bets) && r.value == ScoresOf(players, bets, won)
      ensures r.Ok? && roundNumber > 0 ==> leader in players
      ensures r.Err? ==> r.failure.IllegalCardPlayed? && r.failure.player in players
    {
      RunBiddingPhase(bid);
      BiddingKeys(players, old(bets), roundNumber, hands, TrumpSuit(), bid);
      var played;
      played, winners, tricks := PlayTricks(decide);
      if played.Err? {
        return Err(played.failure), winners, tricks;
      }
      r := CalculateScores();
    }
  }
}
