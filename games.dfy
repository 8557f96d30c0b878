/** Two players, whose turn it is, and who has won. */
module Games {
  import opened Cards
  import opened Rules
  import opened Players

  class Game {
    var players: seq<Player>
    var currentPlayer: int

    ghost predicate Valid()
      reads this, players
    {
      && |players| == 2
      && players[0] != players[1]
      && players[0].Valid() && players[1].Valid()
      && (currentPlayer == 0 || currentPlayer == 1)
    }

    /** Two new players, "Player 1" and "Player 2", on the given decks; player 0 moves first. */
    constructor (deck1: Deck, deck2: Deck)
      ensures Valid() && currentPlayer == 0
      ensures fresh(players[0]) && fresh(players[1])
      ensures players[0].name == "Player 1" && players[0].deck == deck1
      ensures players[1].name == "Player 2" && players[1].deck == deck2
      ensures forall p :: p in players ==>
        p.hand == [] && p.caravans == [[], [], []] && p.directions == [Unset, Unset, Unset]
    {
      var p1 := new Player("Player 1", deck1);
      var p2 := new Player("Player 2", deck2);
      players := [p1, p2];
      currentPlayer := 0;
    }

    /** Hands the turn to the other player. */
    method SwitchPlayer()
      requires Valid()
      modifies this
      ensures Valid() && players == old(players)
      ensures currentPlayer == 1 - old(currentPlayer)
      ensures currentPlayer != old(currentPlayer)
    {
      currentPlayer := 1 - currentPlayer;
    }

    /** The scores of both players' caravans, in player order. */
    function Boards(): (boards: seq<seq<int>>)
      reads this, players
      requires Valid()
      ensures |boards| == 2
      ensures forall p, i :: 0 <= p < 2 && 0 <= i < 3 ==>
        |boards[p]| == 3 && boards[p][i] == Score(players[p].caravans[i])
    {
      [players[0].CalculateCaravanScores(), players[1].CalculateCaravanScores()]
    }

    /** Two distinct caravans of player p score in the winning range at the same time. */
    ghost predicate TwoCaravansWin(p: nat)
      reads this, players
      requires Valid() && p < 2
    {
      exists i, j :: 0 <= i < j < 3 &&
        Winning(Score(players[p].caravans[i])) && Winning(Score(players[p].caravans[j]))
    }

    /**
     * The first player, in order, with at least two of their three caravans winning at the
     * same time; none when neither has. Changes nothing.
     */
    function CheckWinner(): (w: Option<nat>)
      reads this, players
      requires Valid()
      ensures w.Some? ==> w.value < 2 && TwoCaravansWin(w.value) && (w.value == 1 ==> !TwoCaravansWin(0))
      ensures w.None? <==> !TwoCaravansWin(0) && !TwoCaravansWin(1)
    {
      var boards := Boards();
      TwoWinning(boards[0]);
      TwoWinning(boards[1]);
      FirstWinner(boards, 0)
    }
  }
}
