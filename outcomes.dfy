/** Failure-carrying results shared by every part of the engine.
    The Python code raises exceptions (or fails an assert); the model
    returns one of these values instead. */
module Outcomes {

  datatype Option<+T> = None | Some(value: T)

  /** The ways the engine can fail, each standing for the raises or failed
      asserts named beside it. */
  datatype Failure =
    | InvalidCard              // WizardCard.__post_init__ raises ValueError
    | InsufficientCards        // Deck.draw raises ValueError
    | PlayerNotFound           // a player missing from a lookup: list.index raises ValueError
                               // in rotate_players, and calculate_scores raises KeyError for a
                               // player without a bet
    | IllegalCardPlayed(player: nat)  // the assert in Turn.play fails
    | NoPlayers                // no players to work on: indexing the first player of an empty
                               // list (IndexError), or max() of no scores in end_game (ValueError)
    | TooManyPlayers           // WizardGame.add_player with six players present
    | InvalidPlayerCount       // WizardGame.start_game outside 3..6 players

  datatype Result<+T> = Ok(value: T) | Err(failure: Failure)
}
