/** Player identities and `rotate_players` of src/core/player.py. The
    decision methods of WizardBasePlayer are supplied to the engine as
    function values (see the Turns and Rounds modules). */
module Players {
  import opened Outcomes
  import opened Collections

  /** An opaque, stable player identity. The Python code keys its
      dictionaries by the player objects themselves. */
  type PlayerId = nat

  /** `rotate_players(players, start_player)`: the seating list, read
      cyclically from the first seat of `start`. A player that is not
      seated is an error. The input is a value, so it is never modified. */
  function RotatePlayers(players: seq<PlayerId>, start: PlayerId): (r: Result<seq<PlayerId>>)
    ensures r.Err? <==> start !in players
    ensures r.Err? ==> r.failure == PlayerNotFound
    ensures r.Ok? ==> |r.value| == |players| && r.value[0] == start
    ensures r.Ok? ==> multiset(r.value) == multiset(players)
    ensures r.Ok? ==> var i, n := IndexOf(players, start), |players|;
              forall k :: 0 <= k < n ==> r.value[k] == players[if i + k < n then i + k else i + k - n]
  {
    if start !in players then Err(PlayerNotFound)
    else
      var i := IndexOf(players, start);
      assert players == players[..i] + players[i..];
      Ok(players[i..] + players[..i])
  }

  /** Rotating to the player already first, and rotating a one-player
      list, change nothing. */
  lemma {:induction false} RotateToFirstIsIdentity(players: seq<PlayerId>)
    requires |players| > 0
    ensures RotatePlayers(players, players[0]) == Ok(players)
  {
    assert IndexOf(players, players[0]) == 0;
    assert players[0..] + players[..0] == players;
  }
}
