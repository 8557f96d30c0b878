/**
 * A player: a hand, exactly three caravans with a direction slot each, and an own deck.
 * Every move updates these fields in place; the Rules module says what the new values are.
 */
module Players {
  import opened Cards
  import opened Rules

  /** The hand size a refill tops up to by default. */
  const HandSize := 5

  class Player {
    const name: string
    const deck: Deck
    var hand: seq<Card>
    var caravans: seq<seq<Card>>
    var directions: seq<Direction>

    ghost predicate Valid()
      reads this
    {
      |caravans| == 3 && |directions| == 3
    }

    /** A player with an empty hand, three empty caravans and no direction set. */
    constructor (name: string, deck: Deck)
      ensures Valid()
      ensures this.name == name && this.deck == deck
      ensures hand == [] && caravans == [[], [], []] && directions == [Unset, Unset, Unset]
    {
      this.name := name;
      this.deck := deck;
      hand := [];
      caravans := [[], [], []];
      directions := [Unset, Unset, Unset];
    }

    /** Draws one card from `d` onto the end of the hand; an empty deck changes nothing. */
    method DrawCard(d: Deck)
      modifies this, d
      ensures caravans == old(caravans) && directions == old(directions)
      ensures old(d.cards) == [] ==> hand == old(hand) && d.cards == old(d.cards)
      ensures old(d.cards) != [] ==>
        && hand == old(hand) + [Last(old(d.cards))]
        && d.cards == old(d.cards)[..|old(d.cards)| - 1]
    {
      var card := d.Draw();
      if card.Some? {
        hand := hand + [card.value];
      }
    }

    /**
     * Draws from the own deck until the hand holds `handSize` cards or the deck is empty:
     * the drawn cards come off the end of the deck and go, in that order, onto the hand.
     */
    method RefillHand(handSize: int := HandSize)
      requires Valid()
      modifies this, deck
      ensures Valid() && caravans == old(caravans) && directions == old(directions)
      ensures var n := if |old(hand)| >= handSize then 0
                       else Min(handSize - |old(hand)|, |old(deck.cards)|);
        && hand == old(hand) + DrawOrder(old(deck.cards), n)
        && deck.cards == old(deck.cards)[..|old(deck.cards)| - n]
      ensures |hand| >= handSize || deck.cards == []
      ensures |hand| + |deck.cards| == |old(hand)| + |old(deck.cards)|
      ensures multiset(hand) + multiset(deck.cards) == multiset(old(hand)) + multiset(old(deck.cards))
      ensures |old(hand)| >= handSize ==> hand == old(hand) && deck.cards == old(deck.cards)
    {
      ghost var hand0, cards0 := hand, deck.cards;
      ghost var drawn: nat := 0;
      while |hand| < handSize && deck.cards != []
        invariant Valid() && caravans == old(caravans) && directions == old(directions)
        invariant drawn <= |cards0|
        invariant hand == hand0 + DrawOrder(cards0, drawn)
        invariant deck.cards == cards0[..|cards0| - drawn]
        invariant drawn > 0 ==> |hand| <= handSize
        decreases |deck.cards|
      {
        ghost var before := deck.cards;
        DrawCard(deck);
        assert Last(before) == cards0[|cards0| - (drawn + 1)];
        drawn := drawn + 1;
      }
      DrawConserves(cards0, drawn);
    }

    /**
     * The legality check for placing `card` on caravan `caravanIndex`. It refuses only what
     * Blocked describes, and as a side effect fixes the direction when a numeral goes onto a
     * one-card caravan; a refusal changes nothing.
     */
    method CanPlay(card: Card, caravanIndex: int) returns (ok: bool)
      requires Valid() && 0 <= caravanIndex < 3
      modifies this
      ensures Valid() && hand == old(hand) && caravans == old(caravans)
      ensures ok == !Blocked(old(caravans[caravanIndex]), old(directions[caravanIndex]), card)
      ensures directions == old(directions)[caravanIndex :=
        CheckedDirection(old(caravans[caravanIndex]), old(directions[caravanIndex]), card)]
      ensures !ok ==> directions == old(directions)
    {
      var caravan := caravans[caravanIndex];
      var direction := directions[caravanIndex];
      if caravan == [] {
        return true;
      }
      var lastCard := caravan[|caravan| - 1];
      if card.Special() {
        return true;
      }
      if |caravan| == 1 && !card.Special() {
        directions := directions[caravanIndex := if card.value > lastCard.value then Up else Down];
        return true;
      }
      if direction != Unset && !card.Special() && card.suit != lastCard.suit {
        if direction == Up && card.value <= lastCard.value {
          return false;
        }
        if direction == Down && card.value >= lastCard.value {
          return false;
        }
      }
      return true;
    }

    /**
     * The effect of a face card on caravan `caravanIndex`: a Jack removes the first numeral
     * its stride-2 backward scan from len-2 finds, a Queen flips the direction, a King appends
     * a new copy of the last numeral.
     */
    method ApplySpecialEffect(card: Card, caravanIndex: int)
      requires Valid() && 0 <= caravanIndex < 3
      modifies this
      ensures Valid() && hand == old(hand)
      ensures caravans == old(caravans)[caravanIndex := EffectCaravan(card, old(caravans[caravanIndex]))]
      ensures directions == old(directions)[caravanIndex := EffectDirection(card, old(directions[caravanIndex]))]
    {
      var caravan := caravans[caravanIndex];
      if card.SpecialType() == Some(Jack) {
        var i := |caravan| - 2;
        while i > -2
          invariant -3 <= i < |caravan|
          invariant i == -1 ==> caravan != []
          invariant JackScan(caravan, i) == JackScan(caravan, |caravan| - 2)
          invariant caravans == old(caravans) && directions == old(directions)
          decreases i + 3
        {
          var p := if i < 0 then |caravan| + i else i;
          if !caravan[p].Special() {
            caravans := caravans[caravanIndex := caravan[..p] + caravan[p + 1..]];
            break;
          }
          i := i - 2;
        }
      } else if card.SpecialType() == Some(Queen) {
        var currentDirection := directions[caravanIndex];
        directions := directions[caravanIndex := if currentDirection == Up then Down else Up];
      } else if card.SpecialType() == Some(King) {
        var i := |caravan| - 1;
        while i > -1
          invariant -1 <= i < |caravan|
          invariant NumeralAtOrBefore(caravan, i) == NumeralAtOrBefore(caravan, |caravan| - 1)
          invariant caravans == old(caravans) && directions == old(directions)
        {
          if !caravan[i].Special() {
            caravans := caravans[caravanIndex := caravan + [Card(caravan[i].value, caravan[i].suit)]];
            break;
          }
          i := i - 1;
        }
      }
    }

    /**
     * Plays hand card `cardIndex` onto caravan `caravanIndex` of `opponent`, or of this player
     * when `opponent` is null. Out-of-range indices and refused cards change nothing; a legal
     * play moves the card from the hand to the end of the target caravan and applies its effect.
     */
    method PlayCard(cardIndex: int, caravanIndex: int, opponent: Player?) returns (ok: bool)
      requires Valid() && (opponent != null ==> opponent.Valid())
      modifies this, opponent
      ensures Valid() && (opponent != null ==> opponent.Valid())
      ensures var t := if opponent != null then opponent else this;
        ok == (&& 0 <= cardIndex < |old(hand)|
               && 0 <= caravanIndex < 3
               && !Blocked(old(t.caravans[caravanIndex]), old(t.directions[caravanIndex]), old(hand[cardIndex])))
      ensures !ok ==> hand == old(hand) && caravans == old(caravans) && directions == old(directions)
      ensures !ok && opponent != null ==>
        && opponent.hand == old(opponent.hand)
        && opponent.caravans == old(opponent.caravans)
        && opponent.directions == old(opponent.directions)
      ensures ok ==>
        var t := if opponent != null then opponent else this;
        var card := old(hand[cardIndex]);
        var c := old(t.caravans[caravanIndex]);
        var d := old(t.directions[caravanIndex]);
        && hand == old(hand[..cardIndex] + hand[cardIndex + 1..])
        && t.caravans == old(t.caravans)[caravanIndex := PlacedCaravan(card, c)]
        && t.directions == old(t.directions)[caravanIndex := PlacedDirection(card, c, d)]
      ensures ok && opponent != null && opponent != this ==>
        && caravans == old(caravans) && directions == old(directions)
        && opponent.hand == old(opponent.hand)
    {
      ok := false;
      if 0 <= cardIndex < |hand| && 0 <= caravanIndex < 3 {
        var card := hand[cardIndex];
        var target := if opponent != null then opponent else this;
        var legal := target.CanPlay(card, caravanIndex);
        if legal {
          hand := hand[..cardIndex] + hand[cardIndex + 1..];
          target.caravans := target.caravans[caravanIndex := target.caravans[caravanIndex] + [card]];
          if card.Special() {
            target.ApplySpecialEffect(card, caravanIndex);
          }
          ok := true;
        }
      }
    }

    /** One score per caravan, in caravan order: the sum of its numerals' values. */
    function CalculateCaravanScores(): (scores: seq<int>)
      reads this
      requires Valid()
      ensures |scores| == 3
      ensures forall i :: 0 <= i < 3 ==> scores[i] == Score(caravans[i])
    {
      [Score(caravans[0]), Score(caravans[1]), Score(caravans[2])]
    }
  }

  function Min(a: int, b: int): int {
    if a <= b then a else b
  }
}
