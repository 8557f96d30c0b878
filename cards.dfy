/** Cards, their classification into numerals and faces, and the deck they are drawn from. */
module Cards {

  datatype Option<T> = None | Some(value: T)

  datatype Suit = Hearts | Diamonds | Clubs | Spades

  /** The three face (special) card types. */
  datatype Face = Jack | Queen | King

  /** Card values the classification accepts: a value above 13 has no face type. */
  type Rank = v: int | 1 <= v <= 13 witness 1

  /** The value a face card carries. */
  function FaceValue(f: Face): (v: Rank)
    ensures v > 10
  {
    match f
    case Jack => 11
    case Queen => 12
    case King => 13
  }

  datatype Card = Card(value: Rank, suit: Suit) {

    /** Face cards are special: they score nothing and trigger an effect when played. */
    predicate Special() {
      value > 10
    }

    /** The face type of a special card, none for a numeral. */
    function SpecialType(): (f: Option<Face>)
      ensures f.Some? <==> Special()
      ensures f.Some? ==> FaceValue(f.value) == value
    {
      if value == 11 then Some(Jack)
      else if value == 12 then Some(Queen)
      else if value == 13 then Some(King)
      else None
    }
  }

  /** Classifying the value of a face gives back that face, whatever the suit. */
  lemma FaceRoundTrip(f: Face, s: Suit)
    ensures Card(FaceValue(f), s).Special()
    ensures Card(FaceValue(f), s).SpecialType() == Some(f)
  {
  }

  /** The first n cards popped off the end of `cards`, in the order they come off. */
  function DrawOrder(cards: seq<Card>, n: nat): (r: seq<Card>)
    requires n <= |cards|
    ensures |r| == n
    ensures forall j :: 0 <= j < n ==> r[j] == cards[|cards| - 1 - j]
  {
    if n == 0 then [] else DrawOrder(cards, n - 1) + [cards[|cards| - n]]
  }

  /** Drawing n cards moves them out of the deck: no card is lost or duplicated. */
  lemma {:induction false} DrawConserves(cards: seq<Card>, n: nat)
    requires n <= |cards|
    ensures multiset(DrawOrder(cards, n)) + multiset(cards[..|cards| - n]) == multiset(cards)
  {
    if n == 0 {
      assert cards[..|cards|] == cards;
    } else {
      var m := |cards| - n;
      DrawConserves(cards, n - 1);
      assert DrawOrder(cards, n) == DrawOrder(cards, n - 1) + [cards[m]];
      assert cards[..m + 1] == cards[..m] + [cards[m]];
    }
  }

  /** An ordered pool of cards, drawn from its end. */
  class Deck {
    var cards: seq<Card>

    /** A deck holding `cards` in the order the shuffle left them. */
    constructor (cards: seq<Card>)
      ensures this.cards == cards
    {
      this.cards := cards;
    }

    /** Pops the last card, or reports an empty deck and changes nothing. */
    method Draw() returns (c: Option<Card>)
      modifies this
      ensures old(cards) == [] ==> c == None && cards == old(cards)
      ensures old(cards) != [] ==>
        && c == Some(old(cards)[|old(cards)| - 1])
        && cards == old(cards)[..|old(cards)| - 1]
    {
      if cards != [] {
        c := Some(cards[|cards| - 1]);
        cards := cards[..|cards| - 1];
      } else {
        c := None;
      }
    }
  }
}
