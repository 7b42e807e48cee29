/** src/components/Hand.js: a hand's cards and the fields `updateHand`
    derives from them (value with Ace reduction, softness, hand type). */
module Hands {
  import opened Results
  import opened Decks
  import opened Shoes

  datatype HandType = Hard | Soft | Pair

  /** Faces `getCardValue` counts as 10. */
  const TenFaces: set<string> := {"K", "Q", "J", "T"}

  predicate IsNumeral(s: string) {
    |s| > 0 && forall k :: 0 <= k < |s| ==> '0' <= s[k] <= '9'
  }

  /** The number a string of decimal digits spells. */
  function NumeralValue(s: string): (n: nat)
    requires forall k :: 0 <= k < |s| ==> '0' <= s[k] <= '9'
  {
    if |s| == 0 then 0
    else NumeralValue(s[..|s| - 1]) * 10 + (s[|s| - 1] as int - '0' as int)
  }

  /** `getCardValue`: 11 for an Ace, 10 for K/Q/J/T, otherwise the number the
      face spells (`+value`); a face that spells no number counts 0. */
  function CardValue(value: string): (v: nat)
    ensures value == "A" ==> v == 11
    ensures value in TenFaces ==> v == 10
    ensures value != "A" && value !in TenFaces && IsNumeral(value) ==> v == NumeralValue(value)
  {
    if value == "A" then 11
    else if value in TenFaces then 10
    else if IsNumeral(value) then NumeralValue(value)
    else 0
  }

  /** The total with every Ace counted as 11 (the for-loop's `sum`). */
  function RawSum(cards: seq<Card>): nat
  {
    if |cards| == 0 then 0
    else RawSum(cards[..|cards| - 1]) + CardValue(cards[|cards| - 1].value)
  }

  /** Cards worth 11 (the for-loop's `aceCount`). */
  function AceCount(cards: seq<Card>): nat
  {
    if |cards| == 0 then 0
    else AceCount(cards[..|cards| - 1]) + (if CardValue(cards[|cards| - 1].value) == 11 then 1 else 0)
  }

  /** The while-loop: while the total is over 21 and an Ace is still counted
      as 11, count it as 1. Returns the total and the Aces still at 11. */
  function Reduce(sum: int, aces: nat): (int, nat)
    decreases aces
  {
    if sum > 21 && aces > 0 then Reduce(sum - 10, aces - 1) else (sum, aces)
  }

  /** The reduction subtracts 10 per Ace reduced, reduces only while the total
      is over 21, and stops as soon as the total is at most 21: a total over 21
      has every Ace at 1, an Ace left at 11 means the total is at most 21, and
      each reduction was needed (one fewer would leave the total over 21). */
  lemma {:induction false} ReduceCharacterised(sum: int, aces: nat)
    ensures Reduce(sum, aces).1 <= aces
    ensures Reduce(sum, aces).0 == sum - 10 * (aces - Reduce(sum, aces).1)
    ensures Reduce(sum, aces).0 > 21 ==> Reduce(sum, aces).1 == 0
    ensures Reduce(sum, aces).1 > 0 ==> Reduce(sum, aces).0 <= 21
    ensures Reduce(sum, aces).1 < aces ==> Reduce(sum, aces).0 + 10 > 21
    ensures sum <= 21 ==> Reduce(sum, aces) == (sum, aces)
    decreases aces
  {
    if sum > 21 && aces > 0 {
      ReduceCharacterised(sum - 10, aces - 1);
    }
  }

  function ValueOf(cards: seq<Card>): int {
    Reduce(RawSum(cards), AceCount(cards)).0
  }

  function ContainsAce(cards: seq<Card>): bool {
    exists k :: 0 <= k < |cards| && cards[k].value == "A"
  }

  /** `isSoft`: an Ace among the cards, a total of at most 21 and an Ace still
      counted as 11. */
  function SoftOf(cards: seq<Card>): bool {
    ContainsAce(cards) && ValueOf(cards) <= 21 && Reduce(RawSum(cards), AceCount(cards)).1 > 0
  }

  function TypeOf(cards: seq<Card>): HandType {
    if |cards| == 2 && cards[0].value == cards[1].value then Pair
    else if SoftOf(cards) then Soft
    else Hard
  }

  /** Sum of the cards' Hi-Lo weights. */
  function CountSum(cards: seq<Card>): int
  {
    if |cards| == 0 then 0
    else CountSum(cards[..|cards| - 1]) + cards[|cards| - 1].countValue
  }

  /** The count of two lists joined is the sum of their counts. */
  lemma {:induction false} CountSumAppend(a: seq<Card>, b: seq<Card>)
    ensures CountSum(a + b) == CountSum(a) + CountSum(b)
    decreases |b|
  {
    if |b| > 0 {
      CountSumAppend(a, b[..|b| - 1]);
      assert (a + b)[..|a + b| - 1] == a + b[..|b| - 1];
      assert (a + b)[|a + b| - 1] == b[|b| - 1];
    } else {
      assert a + b == a;
    }
  }

  /** With Hi-Lo weights of -1, 0 or 1, a count is at most the number of
      cards either way. */
  lemma {:induction false} CountSumBounded(cards: seq<Card>)
    ensures (forall k :: 0 <= k < |cards| ==> -1 <= cards[k].countValue <= 1) ==>
      -|cards| <= CountSum(cards) <= |cards|
  {
    if |cards| > 0 {
      var n := |cards| - 1;
      assert forall k :: 0 <= k < n ==> cards[..n][k] == cards[k];
      CountSumBounded(cards[..n]);
    }
  }

  /** An Ace among the cards is among the cards worth 11. */
  lemma {:induction false} AceCounted(cards: seq<Card>)
    ensures ContainsAce(cards) ==> AceCount(cards) > 0
  {
    if |cards| > 0 && ContainsAce(cards) {
      var n := |cards| - 1;
      if cards[n].value != "A" {
        var k :| 0 <= k < |cards| && cards[k].value == "A";
        assert cards[..n][k] == cards[k];
        AceCounted(cards[..n]);
      }
    }
  }

  /** The cards a hand holds after `addCard(card)`. */
  function AfterAddCard(cards: seq<Card>, isDoubled: bool, card: Card): seq<Card> {
    if isDoubled && |cards| >= 3 then cards else cards + [card]
  }

  /** The hand total is the all-Aces-high total minus 10 per Ace reduced; a
      total over 21 has every Ace at 1; a soft hand has an Ace and is not over
      21; a hand that is not over 21 would be over 21 with one more Ace at 11. */
  lemma HandValueFacts(cards: seq<Card>)
    ensures ValueOf(cards) <= RawSum(cards)
    ensures ValueOf(cards) > 21 ==> ValueOf(cards) == RawSum(cards) - 10 * AceCount(cards)
    ensures SoftOf(cards) ==> ContainsAce(cards) && ValueOf(cards) <= 21
    ensures ValueOf(cards) < RawSum(cards) ==> ValueOf(cards) + 10 > 21
  {
    ReduceCharacterised(RawSum(cards), AceCount(cards));
  }

  /** With faces worth at most 11, two cards total 21 (what `isBlackJack`
      asks of a two-card hand) exactly when one is an Ace-valued card and
      the other is worth 10. */
  lemma TwoCardTwentyOne(cards: seq<Card>)
    requires |cards| == 2
    requires CardValue(cards[0].value) <= 11 && CardValue(cards[1].value) <= 11
    ensures ValueOf(cards) == 21 <==>
      {CardValue(cards[0].value), CardValue(cards[1].value)} == {10, 11}
  {
    var v0, v1 := CardValue(cards[0].value), CardValue(cards[1].value);
    var first := cards[..1];
    assert first[..0] == [] && first[0] == cards[0];
    assert RawSum(first) == v0 && AceCount(first) == (if v0 == 11 then 1 else 0);
    assert cards[..|cards| - 1] == first;
    assert RawSum(cards) == v0 + v1;
    assert AceCount(cards) == (if v0 == 11 then 1 else 0) + (if v1 == 11 then 1 else 0);
    if v0 == 11 && v1 == 11 {
      assert Reduce(22, 2) == (12, 1);
    }
    if {v0, v1} == {10, 11} {
      assert v0 + v1 == 21 by {
        assert v0 in {10, 11} && v1 in {10, 11} && (v0 == 10 || v1 == 10) && (v0 == 11 || v1 == 11);
      }
    }
  }

  /** Worked hands: A+6 is soft 17, adding a 9 makes it hard 16; A+9+9 is hard
      19; 8+8 is a pair; A+K is 21 in two cards. */
  lemma ExampleHands()
    ensures var a6 := [Card("♠", "A", -1), Card("♠", "6", 1)];
      ValueOf(a6) == 17 && SoftOf(a6) && TypeOf(a6) == Soft
    ensures var a69 := [Card("♠", "A", -1), Card("♠", "6", 1), Card("♠", "9", 0)];
      ValueOf(a69) == 16 && !SoftOf(a69) && TypeOf(a69) == Hard
    ensures var a99 := [Card("♠", "A", -1), Card("♠", "9", 0), Card("♥", "9", 0)];
      ValueOf(a99) == 19 && !SoftOf(a99) && TypeOf(a99) == Hard
    ensures TypeOf([Card("♠", "8", 0), Card("♥", "8", 0)]) == Pair
    ensures ValueOf([Card("♠", "A", -1), Card("♠", "K", -1)]) == 21
  {
    var a6 := [Card("♠", "A", -1), Card("♠", "6", 1)];
    assert a6[..1] == [a6[0]];
    assert CardValue("6") == 6 by {
      assert NumeralValue("6") == 6 by { assert "6"[..0] == ""; }
    }
    assert CardValue("9") == 9 by {
      assert NumeralValue("9") == 9 by { assert "9"[..0] == ""; }
    }
    assert CardValue("8") == 8 by {
      assert NumeralValue("8") == 8 by { assert "8"[..0] == ""; }
    }
    assert a6[..1][..0] == [];
    assert AceCount(a6[..1]) == 1;
    assert a6[..|a6| - 1] == a6[..1];
    assert RawSum(a6[..1]) == 11;
    assert RawSum(a6) == 17 && AceCount(a6) == 1;
    var a69 := a6 + [Card("♠", "9", 0)];
    assert a69[..2] == a6;
    assert RawSum(a69) == 26 && AceCount(a69) == 1;
    assert Reduce(26, 1) == (16, 0);
    assert ContainsAce(a69) by { assert a69[0].value == "A"; }
    assert a69 == [Card("♠", "A", -1), Card("♠", "6", 1), Card("♠", "9", 0)];
    var a99 := [Card("♠", "A", -1), Card("♠", "9", 0), Card("♥", "9", 0)];
    assert a99[..2][..1] == [a99[0]];
    assert ContainsAce(a6) by { assert a6[0].value == "A"; }
    var ak := [Card("♠", "A", -1), Card("♠", "K", -1)];
    assert ak[..1] == [ak[0]];
  }

  class Hand {
    var cards: seq<Card>
    var handValue: int
    var handType: HandType
    var isDoubled: bool
    var isSoft: bool

    /** The fields `updateHand` derives agree with the cards. */
    ghost predicate Derived()
      reads this
    {
      handValue == ValueOf(cards) && isSoft == SoftOf(cards) && handType == TypeOf(cards)
    }

    /** ...and a doubled hand holds two cards (its draw failed) or three. */
    ghost predicate Valid()
      reads this
    {
      && (isDoubled ==> 2 <= |cards| <= 3)
      && (handType == Pair ==> |cards| == 2)
    }

    constructor ()
      ensures Valid() && Derived()
      ensures cards == [] && handValue == 0 && handType == Hard && !isDoubled && !isSoft
    {
      cards := [];
      handValue := 0;
      handType := Hard;
      isDoubled := false;
      isSoft := false;
    }

    /** `upCardValue`: the first card's value; undefined (NaN in JS) for an
        empty hand. */
    function UpCardValue(): (u: Option<int>)
      reads this
      ensures u.None? <==> cards == []
      ensures u.Some? ==> u.value == CardValue(cards[0].value)
    {
      if cards == [] then None else Some(CardValue(cards[0].value))
    }

    /** `runningCount`: the Hi-Lo sum of the cards held. */
    function RunningCount(): (r: int)
      reads this
      ensures cards == [] ==> r == 0
      ensures (forall k :: 0 <= k < |cards| ==> -1 <= cards[k].countValue <= 1) ==> -|cards| <= r <= |cards|
    {
      CountSumBounded(cards);
      CountSum(cards)
    }

    /** `isBlackJack`: two cards and a value of 21. On a hand whose fields
        agree with its cards, that is an Ace-valued card with a ten-valued
        one. */
    function IsBlackJack(): (r: bool)
      reads this
      ensures r ==> |cards| == 2
      ensures Derived() ==> (r <==> |cards| == 2 && ValueOf(cards) == 21)
      ensures Derived() && |cards| == 2 && CardValue(cards[0].value) <= 11 && CardValue(cards[1].value) <= 11 ==>
        (r <==> {CardValue(cards[0].value), CardValue(cards[1].value)} == {10, 11})
    {
      if |cards| == 2 && CardValue(cards[0].value) <= 11 && CardValue(cards[1].value) <= 11 then
        TwoCardTwentyOne(cards);
        handValue == 21
      else
        |cards| == 2 && handValue == 21
    }

    /** `hasAce`: some card is an Ace. Such a card is counted as worth 11,
        and a soft hand always has one. */
    function HasAce(): (r: bool)
      reads this
      ensures r == ContainsAce(cards)
      ensures r ==> AceCount(cards) > 0
      ensures Derived() && isSoft ==> r
    {
      AceCounted(cards);
      HandValueFacts(cards);
      ContainsAce(cards)
    }

    /** Appends the card unless the hand is doubled and already holds three. */
    method AddCard(card: Card)
      requires Valid()
      modifies this
      ensures Valid() && isDoubled == old(isDoubled)
      ensures cards == AfterAddCard(old(cards), old(isDoubled), card)
      ensures old(Derived()) || |cards| > old(|cards|) ==> Derived()
      ensures old(isDoubled) && old(|cards|) >= 3 ==> unchanged(this)
    {
      if isDoubled && |cards| >= 3 {
        return;
      }
      cards := cards + [card];
      UpdateHand();
    }

    /** On a two-card hand: mark it doubled and draw one card into it. Any
        other hand is left alone. */
    method DoubleDown(shoe: Shoe) returns (r: Result<()>)
      requires Valid() && shoe.Valid()
      modifies this, shoe
      ensures Valid() && shoe.Valid() && shoe.cards == old(shoe.cards)
      ensures old(Derived()) || |cards| > old(|cards|) ==> Derived()
      ensures old(|cards|) != 2 ==> r == Ok(()) && unchanged(this) && unchanged(shoe)
      ensures old(|cards|) == 2 ==> isDoubled
      ensures old(|cards|) == 2 && old(shoe.len) == 0 ==>
        && r == Err(EmptyShoe) && cards == old(cards)
        && shoe.len == 0 && shoe.reachedEndMarker == old(shoe.reachedEndMarker)
      ensures old(|cards|) == 2 && old(shoe.len) > 0 ==>
        && r == Ok(())
        && cards == old(cards) + [old(shoe.cards[shoe.len - 1])]
        && shoe.len == old(shoe.len) - 1
    {
      if |cards| == 2 {
        isDoubled := true;
        var card :- shoe.Draw();
        AddCard(card);
      }
      return Ok(());
    }

    /** Recomputes the total (Ace reduction), softness and type from the cards. */
    method UpdateHand()
      modifies this
      ensures cards == old(cards) && isDoubled == old(isDoubled)
      ensures Derived()
    {
      var sum := 0;
      var aceCount := 0;
      for k := 0 to |cards|
        invariant sum == RawSum(cards[..k]) && aceCount == AceCount(cards[..k])
      {
        assert cards[..k + 1][..k] == cards[..k];
        var val := CardValue(cards[k].value);
        if val == 11 {
          aceCount := aceCount + 1;
        }
        sum := sum + val;
      }
      assert cards[..|cards|] == cards;
      while sum > 21 && aceCount > 0
        invariant Reduce(sum, aceCount) == Reduce(RawSum(cards), AceCount(cards))
        decreases aceCount
      {
        sum := sum - 10;
        aceCount := aceCount - 1;
      }
      handValue := sum;
      isSoft := HasAce() && sum <= 21 && aceCount > 0;
      if |cards| == 2 && cards[0].value == cards[1].value {
        handType := Pair;
      } else if isSoft {
        handType := Soft;
      } else {
        handType := Hard;
      }
    }
  }
}
