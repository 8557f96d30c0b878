/**
 * The caravan rules as values: the legality condition for adding a card, the direction a
 * legality check leaves behind, the Jack, Queen and King effects, caravan scores and the
 * winning count. The Player class in module Players runs these rules on its own state.
 */
module Rules {
  import opened Cards

  /** A caravan's direction slot: unset, "up" or "down". */
  datatype Direction = Unset | Up | Down

  function Last(c: seq<Card>): Card
    requires c != []
  {
    c[|c| - 1]
  }

  // ---------------------------------------------------------------- legality

  /**
   * The only way a card is refused: the caravan has two or more cards, its direction is set,
   * the card is a numeral of another suit than the last card, and its value does not go
   * strictly beyond the last card's value in the caravan's direction.
   */
  predicate Blocked(c: seq<Card>, d: Direction, card: Card): (b: bool)
    ensures b ==> c != [] && !card.Special() && card.suit != Last(c).suit
    ensures (&& |c| >= 2 && d != Unset && !card.Special()
             && card.suit != Last(c).suit && card.value == Last(c).value) ==> b
  {
    && |c| >= 2
    && d != Unset
    && !card.Special()
    && card.suit != Last(c).suit
    && (if d == Up then card.value <= Last(c).value else card.value >= Last(c).value)
  }

  /**
   * The direction the legality check leaves behind: a numeral placed on a one-card caravan
   * fixes it, "up" when strictly above the single card (even a face card) and "down" otherwise.
   */
  function CheckedDirection(c: seq<Card>, d: Direction, card: Card): (r: Direction)
    ensures r != d ==> |c| == 1 && !card.Special() && r != Unset
  {
    if |c| == 1 && !card.Special() then
      (if card.value > Last(c).value then Up else Down)
    else d
  }

  lemma EmptyOrFaceAlwaysPlayable(c: seq<Card>, d: Direction, card: Card)
    requires c == [] || card.Special()
    ensures !Blocked(c, d, card)
    ensures CheckedDirection(c, d, card) == d
  {
  }

  /** The second card: a numeral is always accepted and always sets the direction. */
  lemma SecondCardSetsDirection(c: seq<Card>, d: Direction, card: Card)
    requires |c| == 1 && !card.Special()
    ensures !Blocked(c, d, card)
    ensures CheckedDirection(c, d, card) != Unset
    ensures CheckedDirection(c, d, card) == Up <==> card.value > c[0].value
  {
  }

  /** A numeral of the last card's suit passes whatever the direction. */
  lemma SameSuitAlwaysPlayable(c: seq<Card>, d: Direction, card: Card)
    requires c != [] && card.suit == Last(c).suit
    ensures !Blocked(c, d, card)
  {
  }

  /** A refused card leaves the direction as it was. */
  lemma RefusalKeepsDirection(c: seq<Card>, d: Direction, card: Card)
    requires Blocked(c, d, card)
    ensures CheckedDirection(c, d, card) == d
  {
  }

  /** Apart from a numeral going onto a one-card caravan, only a Queen changes the direction. */
  lemma DirectionKeptUnlessSecondNumeralOrQueen(c: seq<Card>, d: Direction, card: Card)
    requires (|c| != 1 || card.Special()) && card.SpecialType() != Some(Queen)
    ensures PlacedDirection(card, c, d) == d
  {
  }

  /**
   * On an ascending caravan ending in a 7 of Diamonds, a 4 of Clubs is refused and a 9 of
   * Clubs accepted; a 4 of Diamonds passes on the suit.
   */
  lemma AscendingExamples()
    ensures Blocked([Card(3, Hearts), Card(7, Diamonds)], Up, Card(4, Clubs))
    ensures !Blocked([Card(3, Hearts), Card(7, Diamonds)], Up, Card(9, Clubs))
    ensures !Blocked([Card(3, Hearts), Card(7, Diamonds)], Up, Card(4, Diamonds))
  {
  }

  // ---------------------------------------------------------------- Jack

  /** Python's reading of index i into a sequence of length n: a negative index counts from the end. */
  function PyIndex(n: nat, i: int): (p: nat)
    requires 0 <= n + i && i < n
    ensures p < n
    ensures i < 0 ==> p == n + i
    ensures 0 <= i ==> p == i
  {
    if i < 0 then n + i else i
  }

  /** The non-negative indices i, i-2, i-4, ... that the Jack's stride-2 scan visits from i. */
  predicate Visits(i: int, j: int) {
    0 <= j <= i && (i - j) % 2 == 0
  }

  /** The scan from i reaches index -1, which Python reads as the last card. */
  predicate WrapsToLast(i: int) {
    i >= -1 && (i + 1) % 2 == 0
  }

  /**
   * The Jack's backward scan from index i, stepping by 2 while the index is above -2: the
   * position of the first numeral found, none when every visited card is special.
   */
  function JackScan(c: seq<Card>, i: int): (r: Option<nat>)
    requires i < |c|
    requires i == -1 ==> c != []
    ensures r.Some? ==> r.value < |c| && !c[r.value].Special()
    ensures r.Some? ==>
      || (Visits(i, r.value) && forall j :: Visits(i, j) && r.value < j ==> c[j].Special())
      || (r.value == |c| - 1 && WrapsToLast(i) && forall j :: Visits(i, j) ==> c[j].Special())
    ensures r.None? ==>
      && (forall j :: Visits(i, j) ==> c[j].Special())
      && (WrapsToLast(i) ==> c[|c| - 1].Special())
    decreases if i <= -2 then 0 else i + 2
  {
    if i <= -2 then None
    else if !c[PyIndex(|c|, i)].Special() then Some(PyIndex(|c|, i))
    else JackScan(c, i - 2)
  }

  /** The caravan after a Jack's effect: the card its scan finds from len-2 is removed. */
  function JackEffect(c: seq<Card>): (r: seq<Card>)
    ensures r == c || exists k :: 0 <= k < |c| && !c[k].Special() && r == c[..k] + c[k + 1..]
    ensures |r| == |c| || |r| == |c| - 1
    ensures c != [] && Last(c).Special() ==> r != [] && Last(r) == Last(c)
  {
    match JackScan(c, |c| - 2)
    case None => c
    case Some(k) =>
      assert c != [] && Last(c).Special() ==> k < |c| - 1;
      c[..k] + c[k + 1..]
  }

  // ---------------------------------------------------------------- Queen

  /** The Queen's flip: "up" becomes "down", anything else (unset too) becomes "up". */
  function Flip(d: Direction): (r: Direction)
    ensures r != Unset && r != d
    ensures r == Down <==> d == Up
  {
    if d == Up then Down else Up
  }

  /** Two Queens in a row restore a set direction; an unset one ends up "down". */
  lemma FlipTwice(d: Direction)
    ensures d != Unset ==> Flip(Flip(d)) == d
    ensures d == Unset ==> Flip(Flip(d)) == Down
  {
  }

  // ---------------------------------------------------------------- King

  /** The last numeral at or before index i, scanning backward. */
  function NumeralAtOrBefore(c: seq<Card>, i: int): (r: Option<nat>)
    requires -1 <= i < |c|
    ensures r.Some? ==> r.value <= i && !c[r.value].Special()
    ensures r.Some? ==> forall j :: r.value < j <= i ==> c[j].Special()
    ensures r.None? ==> forall j :: 0 <= j <= i ==> c[j].Special()
    decreases i + 1
  {
    if i < 0 then None
    else if !c[i].Special() then Some(i)
    else NumeralAtOrBefore(c, i - 1)
  }

  /** The caravan after a King's effect: a new copy of its last numeral is appended. */
  function KingEffect(c: seq<Card>): (r: seq<Card>)
    ensures r == c <==> forall j :: 0 <= j < |c| ==> c[j].Special()
    ensures r != c ==>
      exists k :: && 0 <= k < |c| && !c[k].Special()
                  && (forall j :: k < j < |c| ==> c[j].Special())
                  && r == c + [c[k]]
  {
    match NumeralAtOrBefore(c, |c| - 1)
    case None => c
    case Some(k) => c + [Card(c[k].value, c[k].suit)]
  }

  /** Scanning a prefix gives the same answer however the caravan goes on. */
  lemma {:induction false} NumeralScanPrefix(c: seq<Card>, d: seq<Card>, i: int)
    requires -1 <= i < |c|
    ensures NumeralAtOrBefore(c + d, i) == NumeralAtOrBefore(c, i)
    decreases i + 1
  {
    if i >= 0 {
      assert (c + d)[i] == c[i];
      NumeralScanPrefix(c, d, i - 1);
    }
  }

  // ---------------------------------------------------------------- effects and placement

  /** The caravan after the effect of `card`; only a Jack or a King changes the cards. */
  function EffectCaravan(card: Card, c: seq<Card>): (r: seq<Card>)
    ensures card.SpecialType() != Some(Jack) && card.SpecialType() != Some(King) ==> r == c
    ensures card.SpecialType() == Some(Jack) ==> |c| - 1 <= |r| <= |c|
    ensures card.SpecialType() == Some(King) ==> |c| <= |r| <= |c| + 1 && r[..|c|] == c
  {
    match card.SpecialType()
    case Some(Jack) => JackEffect(c)
    case Some(King) => KingEffect(c)
    case _ => c
  }

  /** The direction after the effect of `card`; only a Queen changes it. */
  function EffectDirection(card: Card, d: Direction): (r: Direction)
    ensures r != d <==> card.SpecialType() == Some(Queen)
    ensures card.SpecialType() == Some(Queen) ==> r != Unset
  {
    if card.SpecialType() == Some(Queen) then Flip(d) else d
  }

  /** The caravan after a legal play of `card`: appended, then its effect if it is special. */
  function PlacedCaravan(card: Card, c: seq<Card>): (r: seq<Card>)
    ensures card.SpecialType() != Some(Jack) ==> |c| + 1 <= |r| <= |c| + 2 && r[..|c| + 1] == c + [card]
    ensures card.SpecialType() == Some(Jack) ==> |c| <= |r| <= |c| + 1
  {
    if card.Special() then EffectCaravan(card, c + [card]) else c + [card]
  }

  /** The direction after a legal play of `card`: the check's, then the effect's. */
  function PlacedDirection(card: Card, c: seq<Card>, d: Direction): (r: Direction)
    ensures r != d ==> (|c| == 1 && !card.Special()) || card.SpecialType() == Some(Queen)
  {
    var checked := CheckedDirection(c, d, card);
    if card.Special() then EffectDirection(card, checked) else checked
  }

  /** A played Jack always stays on the caravan as its last card, and takes at most one card with it. */
  lemma JackStays(card: Card, c: seq<Card>)
    requires card.SpecialType() == Some(Jack)
    ensures var r := PlacedCaravan(card, c); r != [] && Last(r) == card && |c| <= |r| <= |c| + 1
  {
  }

  /** A King's effect on a caravan just extended by a face card copies the numeral before that card. */
  lemma KingEffectAfterFace(c: seq<Card>, face: Card)
    requires face.Special()
    ensures KingEffect(c + [face]) ==
      match NumeralAtOrBefore(c, |c| - 1)
      case None => c + [face]
      case Some(k) => c + [face, c[k]]
  {
    var c' := c + [face];
    NumeralScanPrefix(c, [face], |c| - 1);
    assert NumeralAtOrBefore(c', |c'| - 1) == NumeralAtOrBefore(c, |c| - 1);
    match NumeralAtOrBefore(c, |c| - 1)
    case None =>
    case Some(k) =>
      assert c'[k] == c[k];
      assert c' + [c'[k]] == c + [face, c[k]];
  }

  /** A played King leaves the caravan as it was, plus itself, plus a copy of the last numeral before it. */
  lemma KingPlacement(card: Card, c: seq<Card>)
    requires card.SpecialType() == Some(King)
    ensures PlacedCaravan(card, c) ==
      match NumeralAtOrBefore(c, |c| - 1)
      case None => c + [card]
      case Some(k) => c + [card, c[k]]
  {
    assert PlacedCaravan(card, c) == KingEffect(c + [card]);
    KingEffectAfterFace(c, card);
  }

  /** A Jack on a one-numeral caravan takes that numeral and stays alone. */
  lemma JackOnSingleNumeral()
    ensures PlacedCaravan(Card(11, Spades), [Card(4, Hearts)]) == [Card(11, Spades)]
  {
    assert JackScan([Card(4, Hearts), Card(11, Spades)], 0) == Some(0);
  }

  /**
   * The stride-2 scan skips the numeral right before a face card: from len-2 it visits the
   * King at index 2 and then index 0, so the 3 goes and the 5 stays.
   */
  lemma JackSkipsNearestNumeral()
    ensures PlacedCaravan(Card(11, Clubs), [Card(3, Hearts), Card(5, Diamonds), Card(13, Spades)])
         == [Card(5, Diamonds), Card(13, Spades), Card(11, Clubs)]
  {
    var c := [Card(3, Hearts), Card(5, Diamonds), Card(13, Spades), Card(11, Clubs)];
    assert JackScan(c, 2) == JackScan(c, 0) == Some(0);
    assert c[..0] + c[1..] == [Card(5, Diamonds), Card(13, Spades), Card(11, Clubs)];
  }

  /**
   * With an odd length the scan ends on index -1, the Jack itself, so a numeral at an index
   * of the other parity is never reached and nothing is removed.
   */
  lemma JackMissesOtherParity()
    ensures PlacedCaravan(Card(11, Clubs), [Card(3, Hearts), Card(12, Spades)])
         == [Card(3, Hearts), Card(12, Spades), Card(11, Clubs)]
  {
    var c := [Card(3, Hearts), Card(12, Spades), Card(11, Clubs)];
    assert JackScan(c, 1) == JackScan(c, -1) == JackScan(c, -3) == None;
  }

  /** A King on a single 6 adds a second 6: the caravan scores 12. */
  lemma KingDoublesSix()
    ensures PlacedCaravan(Card(13, Diamonds), [Card(6, Diamonds)])
         == [Card(6, Diamonds), Card(13, Diamonds), Card(6, Diamonds)]
    ensures Score(PlacedCaravan(Card(13, Diamonds), [Card(6, Diamonds)])) == 12
  {
    var c := [Card(6, Diamonds), Card(13, Diamonds)];
    assert NumeralAtOrBefore(c, 1) == NumeralAtOrBefore(c, 0) == Some(0);
    var r := c + [Card(6, Diamonds)];
    assert r[..2] == c && c[..1] == [Card(6, Diamonds)] && [Card(6, Diamonds)][..0] == [];
  }

  // ---------------------------------------------------------------- scores

  /** What a card adds to its caravan's score. */
  function Points(card: Card): nat {
    if card.Special() then 0 else card.value
  }

  /** A caravan's score: the sum of the values of its numerals. */
  function Score(c: seq<Card>): (s: nat)
    ensures s <= 10 * |c|
  {
    if c == [] then 0 else Score(c[..|c| - 1]) + Points(Last(c))
  }

  /** A caravan of face cards only scores nothing. */
  lemma {:induction false} FacesOnlyScoreZero(c: seq<Card>)
    requires forall j :: 0 <= j < |c| ==> c[j].Special()
    ensures Score(c) == 0
  {
    if c != [] {
      FacesOnlyScoreZero(c[..|c| - 1]);
    }
  }

  /** Adding one card to the end adds exactly its points. */
  lemma ScoreSnoc(a: seq<Card>, x: Card)
    ensures Score(a + [x]) == Score(a) + Points(x)
  {
    assert (a + [x])[..|a|] == a;
  }

  lemma {:induction false} ScoreAppend(a: seq<Card>, b: seq<Card>)
    ensures Score(a + b) == Score(a) + Score(b)
    decreases |b|
  {
    if b == [] {
      assert a + b == a;
    } else {
      var front, x := b[..|b| - 1], b[|b| - 1];
      assert a + b == (a + front) + [x];
      assert b == front + [x];
      ScoreSnoc(a + front, x);
      ScoreSnoc(front, x);
      ScoreAppend(a, front);
    }
  }

  /** A card inserted anywhere adds exactly its points. */
  lemma ScoreSplice(a: seq<Card>, x: Card, b: seq<Card>)
    ensures Score(a + [x] + b) == Score(a + b) + Points(x)
  {
    ScoreAppend(a + [x], b);
    ScoreAppend(a, b);
    ScoreSnoc(a, x);
  }

  /** A face card anywhere in a caravan changes nothing in its score. */
  lemma FacesScoreNothing(a: seq<Card>, face: Card, b: seq<Card>)
    requires face.Special()
    ensures Score(a + [face] + b) == Score(a + b)
  {
    ScoreSplice(a, face, b);
  }

  /** Removing card k takes exactly its points off the score. */
  lemma ScoreRemove(c: seq<Card>, k: nat)
    requires k < |c|
    ensures Score(c[..k] + c[k + 1..]) + Points(c[k]) == Score(c)
  {
    SplitAt(c, k);
    ScoreSplice(c[..k], c[k], c[k + 1..]);
  }

  /** A sequence is its part before k, its element at k and its part after k. */
  lemma SplitAt<T>(c: seq<T>, k: nat)
    requires k < |c|
    ensures c[..k] + [c[k]] + c[k + 1..] == c
  {
  }

  /** A played King adds the value of the numeral it copies, or nothing. */
  lemma KingScore(card: Card, c: seq<Card>)
    requires card.SpecialType() == Some(King)
    ensures Score(PlacedCaravan(card, c)) ==
      Score(c) + match NumeralAtOrBefore(c, |c| - 1) case None => 0 case Some(k) => c[k].value
  {
    KingPlacement(card, c);
    ScoreSnoc(c, card);
    match NumeralAtOrBefore(c, |c| - 1)
    case None =>
    case Some(k) =>
      assert c + [card, c[k]] == (c + [card]) + [c[k]];
      ScoreSnoc(c + [card], c[k]);
  }

  /** A played Jack takes away nothing or the value of one numeral of the caravan. */
  lemma JackScore(card: Card, c: seq<Card>)
    requires card.SpecialType() == Some(Jack)
    ensures || Score(PlacedCaravan(card, c)) == Score(c)
            || exists k :: 0 <= k < |c| && !c[k].Special() && Score(PlacedCaravan(card, c)) + c[k].value == Score(c)
  {
    var c' := c + [card];
    ScoreSnoc(c, card);
    var r := JackEffect(c');
    if r != c' {
      var k :| 0 <= k < |c'| && !c'[k].Special() && r == c'[..k] + c'[k + 1..];
      ScoreRemove(c', k);
      assert c'[k] == c[k];
    }
  }

  /** Scores never go down except by a Jack, which takes away the value of the numeral it removes. */
  lemma PlacedScore(card: Card, c: seq<Card>)
    ensures !card.Special() ==> Score(PlacedCaravan(card, c)) == Score(c) + card.value
    ensures card.SpecialType() == Some(Queen) ==> Score(PlacedCaravan(card, c)) == Score(c)
    ensures card.SpecialType() == Some(King) ==>
      Score(PlacedCaravan(card, c)) ==
        Score(c) + match NumeralAtOrBefore(c, |c| - 1) case None => 0 case Some(k) => c[k].value
    ensures card.SpecialType() == Some(Jack) ==>
      || Score(PlacedCaravan(card, c)) == Score(c)
      || exists k :: 0 <= k < |c| && !c[k].Special() && Score(PlacedCaravan(card, c)) + c[k].value == Score(c)
  {
    ScoreSnoc(c, card);
    if card.SpecialType() == Some(King) {
      KingScore(card, c);
    } else if card.SpecialType() == Some(Jack) {
      JackScore(card, c);
    }
  }

  // ---------------------------------------------------------------- winning

  /** A caravan wins when its score is between 21 and 26 inclusive. */
  predicate Winning(score: int) {
    21 <= score <= 26
  }

  /** How many of the scores are winning. */
  function WinningCount(scores: seq<int>): (n: nat)
    ensures n <= |scores|
  {
    if scores == [] then 0
    else WinningCount(scores[..|scores| - 1]) + (if Winning(scores[|scores| - 1]) then 1 else 0)
  }

  /** The count is the number of caravans whose score is winning. */
  lemma {:induction false} WinningCountCounts(scores: seq<int>)
    ensures WinningCount(scores) == |set i | 0 <= i < |scores| && Winning(scores[i])|
    decreases |scores|
  {
    if scores != [] {
      var n := |scores|;
      var p := scores[..n - 1];
      WinningCountCounts(p);
      var before := set i | 0 <= i < n - 1 && Winning(p[i]);
      var after := set i | 0 <= i < n && Winning(scores[i]);
      var tail: set<int> := if Winning(scores[n - 1]) then {n - 1} else {};
      assert forall i :: 0 <= i < n - 1 ==> p[i] == scores[i];
      assert after == before + tail;
      assert before !! tail;
    }
  }

  lemma {:induction false} OneWinning(scores: seq<int>)
    ensures WinningCount(scores) >= 1 <==> exists i :: 0 <= i < |scores| && Winning(scores[i])
    decreases |scores|
  {
    if scores != [] {
      var p := scores[..|scores| - 1];
      OneWinning(p);
      if exists i :: 0 <= i < |scores| && Winning(scores[i]) {
        var i :| 0 <= i < |scores| && Winning(scores[i]);
        if i < |p| { assert p[i] == scores[i]; }
      }
      if exists i :: 0 <= i < |p| && Winning(p[i]) {
        var i :| 0 <= i < |p| && Winning(p[i]);
        assert scores[i] == p[i];
      }
    }
  }

  /** At least two winning scores means two distinct caravans win at once, and conversely. */
  lemma {:induction false} TwoWinning(scores: seq<int>)
    ensures WinningCount(scores) >= 2 <==>
      exists i, j :: 0 <= i < j < |scores| && Winning(scores[i]) && Winning(scores[j])
    decreases |scores|
  {
    if scores != [] {
      var n := |scores|;
      var p := scores[..n - 1];
      TwoWinning(p);
      OneWinning(p);
      if WinningCount(scores) >= 2 {
        if Winning(scores[n - 1]) {
          var i :| 0 <= i < |p| && Winning(p[i]);
          assert scores[i] == p[i];
          assert Winning(scores[i]) && Winning(scores[n - 1]);
        } else {
          var i, j :| 0 <= i < j < |p| && Winning(p[i]) && Winning(p[j]);
          assert scores[i] == p[i] && scores[j] == p[j];
        }
      }
      if exists i, j :: 0 <= i < j < n && Winning(scores[i]) && Winning(scores[j]) {
        var i, j :| 0 <= i < j < n && Winning(scores[i]) && Winning(scores[j]);
        assert p[i] == scores[i];
        if j < n - 1 {
          assert p[j] == scores[j];
        }
      }
    }
  }

  /** The first board (one score per caravan) from index i on with at least two winning caravans. */
  function FirstWinner(boards: seq<seq<int>>, i: nat): (w: Option<nat>)
    requires i <= |boards|
    ensures w.Some? ==>
      && i <= w.value < |boards|
      && WinningCount(boards[w.value]) >= 2
      && forall j :: i <= j < w.value ==> WinningCount(boards[j]) < 2
    ensures w.None? ==> forall j :: i <= j < |boards| ==> WinningCount(boards[j]) < 2
    decreases |boards| - i
  {
    if i == |boards| then None
    else if WinningCount(boards[i]) >= 2 then Some(i)
    else FirstWinner(boards, i + 1)
  }
}
