/** The WizardGame of src/game/wizard_game.py: seats three to six players,
    plays `60 / n` rounds, adds up the round scores and names the players
    tied at the top. */
module Games {
  import opened Outcomes
  import opened Collections
  import opened Cards
  import opened Players
  import opened Decks
  import opened Turns
  import opened Rounds

  /** Cards in a Wizard deck, which bounds the cards dealt per round. */
  const DeckSize: nat := 60

  /** `60 // n`: the number of rounds for n players, the largest r with
      n * r <= 60. */
  function RoundCount(n: nat): (r: nat)
    requires n > 0
    ensures n * r <= DeckSize < n * r + n
  {
    WholeHands(DeckSize, n)
  }

  lemma RoundCounts()
    ensures RoundCount(3) == 20 && RoundCount(4) == 15 && RoundCount(5) == 12 && RoundCount(6) == 10
  {
    WholeHandsFromBounds(DeckSize, 3, 20);
    WholeHandsFromBounds(DeckSize, 4, 15);
    WholeHandsFromBounds(DeckSize, 5, 12);
    WholeHandsFromBounds(DeckSize, 6, 10);
  }

  /** Every round of a game can be dealt: n players with r cards each
      never need more than the deck holds. */
  lemma DealFits(n: nat, r: nat)
    requires n > 0 && r <= RoundCount(n)
    ensures n * r <= DeckSize
  {
    MulMonotone(r, RoundCount(n), n);
  }

  /** `scores.get(p, 0)`. */
  function Get(scores: map<PlayerId, int>, p: PlayerId): int {
    if p in scores then scores[p] else 0
  }

  /** The dictionary comprehension of `_play_round`: every player of
      either map, with the two scores added. */
  function Merge(total: map<PlayerId, int>, round: map<PlayerId, int>): map<PlayerId, int> {
    map p | p in total.Keys + round.Keys :: Get(total, p) + Get(round, p)
  }

  /** Merging adds the round score to each running total, and a player
      with no score in either map is absent from the merge. */
  lemma MergeRule(total: map<PlayerId, int>, round: map<PlayerId, int>)
    ensures Merge(total, round).Keys == total.Keys + round.Keys
    ensures forall p :: Get(Merge(total, round), p) == Get(total, p) + Get(round, p)
  {
  }

  /** Running totals do not depend on the order the rounds are added in,
      and a round without scores leaves them as they were. */
  lemma MergeOrder(total: map<PlayerId, int>, a: map<PlayerId, int>, b: map<PlayerId, int>)
    ensures Merge(Merge(total, a), b) == Merge(Merge(total, b), a)
    ensures Merge(total, map[]) == total
  {
  }

  /** A player's scores over rounds 1..k, added up. */
  function Total(roundScores: map<nat, map<PlayerId, int>>, p: PlayerId, k: nat): int {
    if k == 0 then 0
    else Total(roundScores, p, k - 1) + (if k in roundScores then Get(roundScores[k], p) else 0)
  }

  /** Recording round k + 1 leaves the totals over rounds 1..k alone. */
  lemma {:induction false} TotalFrame(roundScores: map<nat, map<PlayerId, int>>, p: PlayerId, k: nat,
                                     later: nat, s: map<PlayerId, int>)
    requires k < later
    ensures Total(roundScores[later := s], p, k) == Total(roundScores, p, k)
  {
    if k > 0 {
      TotalFrame(roundScores, p, k - 1, later, s);
    }
  }

  /** Recording round k + 1 adds its score to the total over rounds 1..k. */
  lemma TotalAfterRound(roundScores: map<nat, map<PlayerId, int>>, p: PlayerId, k: nat, s: map<PlayerId, int>)
    ensures Total(roundScores[k + 1 := s], p, k + 1) == Total(roundScores, p, k) + Get(s, p)
  {
    TotalFrame(roundScores, p, k, k + 1, s);
  }

  /** Merging round k + 1 into totals over rounds 1..k gives the totals
      over rounds 1..k + 1, for the same players. */
  lemma RoundAdded(players: seq<PlayerId>, roundScores: map<nat, map<PlayerId, int>>,
                   totals: map<PlayerId, int>, k: nat, s: map<PlayerId, int>)
    requires totals.Keys == (set p | p in players) && s.Keys == set p | p in players
    requires forall p :: p in players ==> totals[p] == Total(roundScores, p, k)
    ensures Merge(totals, s).Keys == set p | p in players
    ensures forall p :: p in players ==> Merge(totals, s)[p] == Total(roundScores[k + 1 := s], p, k + 1)
  {
    MergeRule(totals, s);
    forall p | p in players ensures Merge(totals, s)[p] == Total(roundScores[k + 1 := s], p, k + 1) {
      TotalAfterRound(roundScores, p, k, s);
      assert Get(Merge(totals, s), p) == Get(totals, p) + Get(s, p);
    }
  }

  /** The players at the maximum score. */
  function TopScorers(scores: map<PlayerId, int>): set<PlayerId> {
    set p | p in scores && forall q :: q in scores ==> scores[q] <= scores[p]
  }

  /** A non-empty table always has someone at the top, and everyone at the
      top has the same score. */
  lemma {:induction false} TopScorersExist(scores: map<PlayerId, int>)
    requires scores != map[]
    ensures TopScorers(scores) != {}
    ensures forall p, q :: p in TopScorers(scores) && q in TopScorers(scores) ==> scores[p] == scores[q]
    decreases |scores.Keys|
  {
    var p :| p in scores;
    var rest := map q | q in scores && q != p :: scores[q];
    assert rest.Keys == scores.Keys - {p};
    if rest == map[] {
      assert scores.Keys - {p} == {};
      forall q | q in scores ensures scores[q] <= scores[p] {
        assert q !in scores.Keys - {p};
      }
      assert p in TopScorers(scores);
    } else {
      TopScorersExist(rest);
      var t :| t in TopScorers(rest);
      if scores[t] <= scores[p] {
        forall q | q in scores ensures scores[q] <= scores[p] {
          if q != p {
            assert q in rest;
          }
        }
        assert p in TopScorers(scores);
      } else {
        forall q | q in scores ensures scores[q] <= scores[t] {
          if q != p {
            assert q in rest;
          }
        }
        assert t in TopScorers(scores);
      }
    }
  }

  /** `end_game`: the players whose total equals the maximum; ties are
      all named. With no scores at all, `max` fails. */
  function Winners(scores: map<PlayerId, int>): (r: Result<set<PlayerId>>)
    ensures r.Err? <==> scores == map[]
    ensures r.Err? ==> r.failure == NoPlayers
    ensures r.Ok? ==> r.value != {} && r.value <= scores.Keys
    ensures r.Ok? ==> forall p, q :: p in r.value && q in scores ==> scores[q] <= scores[p]
    ensures r.Ok? ==> forall p :: p in scores && p !in r.value ==> exists q :: q in r.value && scores[p] < scores[q]
  {
    if scores == map[] then Err(NoPlayers)
    else
      TopScorersExist(scores);
      Ok(TopScorers(scores))
  }

  /** The random numbers of one round: one stream for the shuffle in the
      deck's constructor and one for the shuffle after it. */
  type RoundShuffles = nat -> (Rng, Rng)

  /** The scores of round k over `players`: the score of some bet per
      player and the tricks that player won, out of k tricks each won by
      a seated player. */
  ghost predicate ScoredRound(players: seq<PlayerId>, k: nat, s: map<PlayerId, int>) {
    exists bets: map<PlayerId, int>, winners: seq<PlayerId> ::
      |winners| == k && (forall w :: w in winners ==> w in players) &&
      (forall p :: p in players ==> p in bets) &&
      s == ScoresOf(players, bets, Tally(players, winners))
  }

  /** The scores of bets and of k seated winners' tricks score round k. */
  lemma ScoredBy(players: seq<PlayerId>, bets: map<PlayerId, int>, winners: seq<PlayerId>)
    requires forall i :: 0 <= i < |winners| ==> winners[i] in players
    requires forall p :: p in players ==> p in bets
    ensures ScoredRound(players, |winners|, ScoresOf(players, bets, Tally(players, winners)))
  {
  }

  /** Recording the scores of round k + 1 keeps rounds 1..k as they were. */
  lemma RoundsScored(players: seq<PlayerId>, roundScores: map<nat, map<PlayerId, int>>, k: nat,
                     after: map<nat, map<PlayerId, int>>)
    requires forall j :: 1 <= j <= k ==> j in roundScores && ScoredRound(players, j, roundScores[j])
    requires k + 1 in after && ScoredRound(players, k + 1, after[k + 1])
    requires after == roundScores[k + 1 := after[k + 1]]
    ensures forall j :: 1 <= j <= k + 1 ==> j in after && ScoredRound(players, j, after[j])
  {
  }

  /** `Round(...).play()`: a fresh round over `players`, dealt `hands` of
      `roundNumber` cards, bid on in seating order and played to its
      scores: one per player, each the score of that player's bet and of
      the tricks it won, where `winners[i]` won `tricks[i]` under `trump`. */
  method RunRound(roundNumber: nat, players: seq<PlayerId>, rng1: Rng, rng2: Rng,
                  bid: BidStrategy, decide: CardStrategy)
    returns (r: Result<map<PlayerId, int>>, ghost hands: map<PlayerId, seq<Card>>, ghost trump: Option<Suit>,
             ghost bets: map<PlayerId, int>, ghost winners: seq<PlayerId>, ghost tricks: seq<seq<Entry>>)
    requires Distinct(players)
    ensures r.Err? ==> r.failure == InsufficientCards || r.failure == NoPlayers ||
                       (r.failure.IllegalCardPlayed? && r.failure.player in players)
    ensures r.Err? && r.failure == InsufficientCards ==> 60 < |players| * roundNumber
    ensures r.Err? && r.failure == NoPlayers ==> players == []
    ensures r.Ok? ==> forall p :: p in players ==> p in hands && |hands[p]| == roundNumber
    ensures r.Ok? ==> bets == Bidding(players, map[], roundNumber, hands, trump, bid)
    ensures r.Ok? ==> |winners| == roundNumber && WonTricks(players, winners, tricks, trump)
    ensures r.Ok? ==> r.value.Keys == set p | p in players
    ensures r.Ok? ==> forall p :: p in players ==> p in bets && r.value[p] == Score(bets[p], Count(winners, p))
    ensures r.Ok? ==> ScoredRound(players, roundNumber, r.value)
  {
    var made := Round.New(roundNumber, players, rng1, rng2);
    if made.Err? {
      return Err(made.failure), map[], None, map[], [], [];
    }
    var round := made.value;
    hands, trump := round.hands, round.TrumpSuit();
    ghost var start := round.won;
    r, winners, tricks := round.Play(bid, decide);
    bets := round.bets;
    if r.Ok? {
      FreshTally(players, start, round.won, winners);
      ScoredBy(players, bets, winners);
    }
  }

  class WizardGame {
    var players: seq<PlayerId>
    var scores: map<PlayerId, int>
    var roundScores: map<nat, map<PlayerId, int>>
    var maxRounds: nat

    constructor ()
      ensures players == [] && scores == map[] && roundScores == map[] && maxRounds == 0
    {
      players := [];
      scores := map[];
      roundScores := map[];
      maxRounds := 0;
    }

    /** `add_player`: a seventh player is refused. */
    method AddPlayer(p: PlayerId) returns (r: Result<()>)
      modifies this
      ensures r.Err? <==> |old(players)| >= 6
      ensures r.Err? ==> r.failure == TooManyPlayers && players == old(players)
      ensures r.Ok? ==> players == old(players) + [p]
      ensures |players| <= 6 || players == old(players)
      ensures scores == old(scores) && roundScores == old(roundScores) && maxRounds == old(maxRounds)
    {
      if |players| >= 6 {
        return Err(TooManyPlayers);
      }
      players := players + [p];
      return Ok(());
    }

    /** `_play_round`: a new round over the seating order; its scores are
        recorded under the round number and added to the totals. */
    method PlayRound(roundNumber: nat, shuffles: RoundShuffles, bid: BidStrategy, decide: CardStrategy)
      returns (r: Result<()>)
      requires Distinct(players)
      modifies this
      ensures players == old(players) && maxRounds == old(maxRounds)
      ensures r.Err? ==> scores == old(scores) && roundScores == old(roundScores)
      ensures r.Err? ==> r.failure == InsufficientCards || r.failure == NoPlayers ||
                         (r.failure.IllegalCardPlayed? && r.failure.player in players)
      ensures r.Err? && r.failure == InsufficientCards ==> 60 < |players| * roundNumber
      ensures r.Err? && r.failure == NoPlayers ==> players == []
      ensures r.Ok? ==> roundNumber in roundScores && roundScores[roundNumber].Keys == set p | p in players
      ensures r.Ok? ==> roundScores == old(roundScores)[roundNumber := roundScores[roundNumber]]
      ensures r.Ok? ==> scores == Merge(old(scores), roundScores[roundNumber])
      ensures r.Ok? ==> ScoredRound(players, roundNumber, roundScores[roundNumber])
    {
      var (rng1, rng2) := shuffles(roundNumber);
      var played;
      ghost var hands, trump, bets, winners, tricks;
      played, hands, trump, bets, winners, tricks := RunRound(roundNumber, players, rng1, rng2, bid, decide);
      if played.Err? {
        return Err(played.failure);
      }
      RecordRound(roundNumber, played.value);
      return Ok(());
    }

    /** Stores a round's scores under its number and adds them into the
        totals. */
    method RecordRound(roundNumber: nat, s: map<PlayerId, int>)
      modifies this
      ensures players == old(players) && maxRounds == old(maxRounds)
      ensures roundScores == old(roundScores)[roundNumber := s]
      ensures scores == Merge(old(scores), s)
    {
      roundScores := roundScores[roundNumber := s];
      scores := Merge(scores, s);
    }

    /** After rounds 1..k of a game that began with the rounds `earlier`
        on record: rounds 1..k are recorded too, each with the scores of a
        round of that many tricks, and the totals are their sums. */
    ghost predicate Recorded(k: nat, earlier: set<nat>)
      reads this
    {
      (forall j :: j in roundScores <==> j in earlier || 1 <= j <= k) &&
      (forall j {:trigger ScoredRound(players, j, roundScores[j])} ::
         1 <= j <= k ==> j in roundScores && ScoredRound(players, j, roundScores[j])) &&
      scores.Keys == (set p | p in players) &&
      forall p {:trigger Total(roundScores, p, k)} :: p in players ==> p in scores && scores[p] == Total(roundScores, p, k)
    }

    /** One pass of the loop of `start_game`: round k + 1 is played, and
        the totals over rounds 1..k become totals over rounds 1..k + 1. */
    method NextRound(k: nat, ghost earlier: set<nat>, shuffles: RoundShuffles, bid: BidStrategy,
                     decide: CardStrategy) returns (r: Result<()>)
      requires Distinct(players) && players != [] && |players| * (k + 1) <= DeckSize
      requires Recorded(k, earlier)
      modifies this
      ensures players == old(players) && maxRounds == old(maxRounds)
      ensures r.Err? ==> r.failure.IllegalCardPlayed? && r.failure.player in players
      ensures r.Ok? ==> Recorded(k + 1, earlier)
    {
      ghost var before, totals := roundScores, scores;
      r := PlayRound(k + 1, shuffles, bid, decide);
      if r.Ok? {
        RoundAdded(players, before, totals, k, roundScores[k + 1]);
        RoundsScored(players, before, k, roundScores);
      }
    }

    /** The loop of `start_game`: rounds 1..maxRounds in turn, each one
        recorded and added to the totals; a failing round ends the game. */
    method PlayRounds(shuffles: RoundShuffles, bid: BidStrategy, decide: CardStrategy) returns (r: Result<()>)
      requires Distinct(players) && players != [] && maxRounds <= RoundCount(|players|)
      requires scores.Keys == set p | p in players
      requires forall p :: p in players ==> scores[p] == 0
      modifies this
      ensures players == old(players) && maxRounds == old(maxRounds)
      ensures r.Err? ==> r.failure.IllegalCardPlayed? && r.failure.player in players
      ensures r.Ok? ==> Recorded(maxRounds, old(roundScores).Keys)
    {
      ghost var earlier := roundScores.Keys;
      var k := 0;
      while k < maxRounds
        invariant 0 <= k <= maxRounds && players == old(players) && maxRounds == old(maxRounds)
        invariant Recorded(k, earlier)
      {
        DealFits(|players|, k + 1);
        var played := NextRound(k, earlier, shuffles, bid, decide);
        if played.Err? {
          return Err(played.failure);
        }
        k := k + 1;
      }
      return Ok(());
    }

    /** `start_game`: three to six players, seated in a shuffled order,
        play rounds 1..60/n; then `end_game` names the winners. */
    method StartGame(seating: Rng, shuffles: RoundShuffles, bid: BidStrategy, decide: CardStrategy)
      returns (r: Result<set<PlayerId>>)
      requires Distinct(players)
      modifies this
      ensures !(3 <= |old(players)| <= 6) ==>
                r == Err(InvalidPlayerCount) && players == old(players) && scores == old(scores) &&
                roundScores == old(roundScores) && maxRounds == old(maxRounds)
      ensures 3 <= |old(players)| <= 6 ==>
                multiset(players) == multiset(old(players)) && maxRounds == RoundCount(|players|)
      ensures r.Err? && 3 <= |old(players)| <= 6 ==>
                r.failure.IllegalCardPlayed? && r.failure.player in players
      ensures r.Ok? ==> forall k :: k in roundScores <==> k in old(roundScores) || 1 <= k <= maxRounds
      ensures r.Ok? ==> forall k :: 1 <= k <= maxRounds ==>
                k in roundScores && ScoredRound(players, k, roundScores[k])
      ensures r.Ok? ==> scores.Keys == set p | p in players
      ensures r.Ok? ==> forall p :: p in players ==> scores[p] == Total(roundScores, p, maxRounds)
      ensures r.Ok? ==> Winners(scores) == Ok(r.value)
    {
      var n := |players|;
      if !(3 <= n <= 6) {
        return Err(InvalidPlayerCount);
      }
      players := Collections.Shuffle(players, seating);
      scores := map p | p in players :: 0;
      maxRounds := RoundCount(n);
      var played := PlayRounds(shuffles, bid, decide);
      if played.Err? {
        return Err(played.failure);
      }
      assert players[0] in scores;
      var winners := Winners(scores);
      return Ok(winners.value);
    }
  }
}
