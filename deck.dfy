/** The Deck of core/deck.py: a list of cards that only shrinks. */
module Decks {
  import opened Outcomes
  import opened Cards
  import opened Collections
  import opened Players

  /** The hands of `players`, concatenated in seating order. */
  function JoinHands(players: seq<PlayerId>, hands: map<PlayerId, seq<Card>>): seq<Card>
    requires forall p :: p in players ==> p in hands
  {
    if players == [] then []
    else JoinHands(players[..|players| - 1], hands) + hands[players[|players| - 1]]
  }

  /** The slice of `cards` that the i-th seat receives when every seat
      draws `k` cards in turn. */
  function Slice(cards: seq<Card>, i: nat, k: nat): seq<Card>
    requires i * k + k <= |cards|
  {
    cards[i * k..i * k + k]
  }

  lemma MulMonotone(a: nat, b: nat, k: nat)
    requires a <= b
    ensures a * k <= b * k
  {
  }

  lemma MulStep(i: nat, k: nat)
    ensures (i + 1) * k == i * k + k
  {
  }

  /** Consecutive slices of k cards, concatenated, give back the first
      n * k cards. */
  lemma {:induction false} SlicesJoin(players: seq<PlayerId>, hands: map<PlayerId, seq<Card>>,
                                     cards: seq<Card>, k: nat)
    requires |players| * k <= |cards|
    requires forall p :: p in players ==> p in hands
    requires forall i :: 0 <= i < |players| ==>
               i * k + k <= |cards| && hands[players[i]] == Slice(cards, i, k)
    ensures JoinHands(players, hands) == cards[..|players| * k]
  {
    var n := |players|;
    if n > 0 {
      var front := players[..n - 1];
      MulMonotone(n - 1, n, k);
      forall i | 0 <= i < |front|
        ensures i * k + k <= |cards| && hands[front[i]] == Slice(cards, i, k)
      {
        assert front[i] == players[i];
      }
      SlicesJoin(front, hands, cards, k);
      MulStep(n - 1, k);
      assert cards[..n * k] == cards[..(n - 1) * k] + cards[(n - 1) * k..n * k];
    }
  }

  /** Every seat's slice has k cards. */
  lemma HandSizes(players: seq<PlayerId>, hands: map<PlayerId, seq<Card>>, cards: seq<Card>, k: nat)
    requires forall p :: p in players ==> p in hands
    requires forall i :: 0 <= i < |players| ==>
               i * k + k <= |cards| && hands[players[i]] == Slice(cards, i, k)
    ensures forall p :: p in players ==> |hands[p]| == k
  {
    forall p | p in players ensures |hands[p]| == k {
      var i := IndexOf(players, p);
    }
  }

  /** `total // k`: how many whole hands of k a pile of `total` cards
      holds. */
  function WholeHands(total: nat, k: nat): (q: nat)
    requires k > 0
    ensures q * k <= total < q * k + k
  {
    var q := total / k;
    assert q * k + total % k == total;
    MulStep(q, k);
    q
  }

  /** i whole hands of k fit in a pile of `total` and i + 1 do not: the
      pile holds exactly i whole hands. */
  lemma {:induction false} WholeHandsFromBounds(total: nat, k: nat, i: nat)
    requires k > 0 && i * k <= total < i * k + k
    ensures WholeHands(total, k) == i
  {
    var q := WholeHands(total, k);
    if q < i {
      MulMonotone(q + 1, i, k);
      MulStep(q, k);
      assert false;
    } else if q > i {
      MulMonotone(i + 1, q, k);
      MulStep(i, k);
      assert false;
    }
  }

  class Deck {
    /** The cards still in the deck, top card first. */
    var cards: seq<Card>

    /** `Deck(cards)`: copies the list, then shuffles the copy. */
    constructor (initial: seq<Card>, rng: Rng)
      ensures |cards| == |initial| && multiset(cards) == multiset(initial)
    {
      cards := initial;
      new;
      Shuffle(rng);
    }

    /** `shuffle`: an arbitrary permutation, as `random.shuffle` makes. */
    method Shuffle(rng: Rng)
      modifies this
      ensures |cards| == |old(cards)| && multiset(cards) == multiset(old(cards))
    {
      cards := Collections.Shuffle(cards, rng);
    }

    function Remaining(): nat
      reads this
    {
      |cards|
    }

    /** `draw(count)`: the top `count` cards, removed from the deck; too
        few cards is an error that leaves the deck alone. */
    method Draw(count: nat) returns (r: Result<seq<Card>>)
      modifies this
      ensures old(Remaining()) < count ==> r == Err(InsufficientCards) && cards == old(cards)
      ensures count <= old(Remaining()) ==> r == Ok(old(cards)[..count]) && cards == old(cards)[count..]
      ensures r.Ok? ==> r.value + cards == old(cards) && Remaining() == old(Remaining()) - count
    {
      if |cards| < count {
        return Err(InsufficientCards);
      }
      var drawn := cards[..count];
      assert drawn + cards[count..] == cards;
      cards := cards[count..];
      return Ok(drawn);
    }

    /** `draw_one`: the top card. */
    method DrawOne() returns (r: Result<Card>)
      modifies this
      ensures old(Remaining()) == 0 ==> r == Err(InsufficientCards) && cards == old(cards)
      ensures old(Remaining()) > 0 ==> r == Ok(old(cards)[0]) && cards == old(cards)[1..]
      ensures r.Ok? ==> Remaining() == old(Remaining()) - 1
    {
      var drawn := Draw(1);
      if drawn.Err? {
        return Err(drawn.failure);
      }
      return Ok(drawn.value[0]);
    }

    /** `deal(players, cards_per_player)`: one draw per player in seating
        order. On success the hands are consecutive slices of the deck; a
        failing draw stops the deal, and the earlier draws stay removed. */
    method Deal(players: seq<PlayerId>, perPlayer: nat) returns (r: Result<map<PlayerId, seq<Card>>>)
      requires Distinct(players)
      modifies this
      ensures r.Ok? <==> |players| * perPlayer <= old(Remaining())
      ensures r.Ok? ==> r.value.Keys == set p | p in players
      ensures r.Ok? ==> forall i :: 0 <= i < |players| ==>
                i * perPlayer + perPlayer <= |old(cards)| &&
                r.value[players[i]] == Slice(old(cards), i, perPlayer)
      ensures r.Ok? ==> cards == old(cards)[|players| * perPlayer..]
      ensures r.Ok? ==> JoinHands(players, r.value) + cards == old(cards)
      ensures r.Err? ==> r.failure == InsufficientCards && perPlayer > 0
      ensures r.Err? && perPlayer > 0 ==>
                cards == old(cards)[WholeHands(old(Remaining()), perPlayer) * perPlayer..]
    {
      ghost var start := cards;
      var hands: map<PlayerId, seq<Card>> := map[];
      var i := 0;
      while i < |players|
        invariant 0 <= i <= |players|
        invariant i * perPlayer <= |start| && cards == start[i * perPlayer..]
        invariant hands.Keys == set j | 0 <= j < i :: players[j]
        invariant forall j :: 0 <= j < i ==>
                    j * perPlayer + perPlayer <= |start| && hands[players[j]] == Slice(start, j, perPlayer)
      {
        var drawn := Draw(perPlayer);
        if drawn.Err? {
          MulStep(i, perPlayer);
          WholeHandsFromBounds(|start|, perPlayer, i);
          MulMonotone(i + 1, |players|, perPlayer);
          return Err(drawn.failure);
        }
        MulStep(i, perPlayer);
        hands := hands[players[i] := drawn.value];
        i := i + 1;
      }
      assert hands.Keys == set p | p in players by {
        forall p | p in players ensures p in hands {
          var j :| 0 <= j < |players| && players[j] == p;
        }
      }
      SlicesJoin(players, hands, start, perPlayer);
      assert start == start[..|players| * perPlayer] + start[|players| * perPlayer..];
      return Ok(hands);
    }
  }
}
