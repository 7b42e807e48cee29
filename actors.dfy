/** src/actors/Player.js and src/actors/Dealer.js: the player's hands, bets
    and bankroll, with every debit checked before anything changes; the
    dealer's single hand. */
module Actors {
  import opened Results
  import opened Decks
  import opened Shoes
  import opened Hands

  /** The running count of a list of hands (`reduce` over `hand.runningCount`). */
  function HandsCount(hands: seq<Hand>): int
    reads hands
  {
    if |hands| == 0 then 0
    else HandsCount(hands[..|hands| - 1]) + hands[|hands| - 1].RunningCount()
  }

  /** Every card of a list of hands, hand after hand. */
  function AllCards(hands: seq<Hand>): seq<Card>
    reads hands
  {
    if |hands| == 0 then [] else AllCards(hands[..|hands| - 1]) + hands[|hands| - 1].cards
  }

  /** Every hand's value, softness and type agree with its cards. */
  ghost predicate AllDerived(hands: seq<Hand>)
    reads hands
  {
    |hands| == 0 || (AllDerived(hands[..|hands| - 1]) && hands[|hands| - 1].Derived())
  }

  /** Hand by hand, the agreement is that of each hand. */
  lemma {:induction false} AllDerivedIff(hands: seq<Hand>)
    ensures AllDerived(hands) <==> forall i :: 0 <= i < |hands| ==> hands[i].Derived()
  {
    if |hands| > 0 {
      var n := |hands| - 1;
      AllDerivedIff(hands[..n]);
      assert forall i :: 0 <= i < n ==> hands[..n][i] == hands[i];
    }
  }

  /** The agreement of a list is that of the hands before `k`, of hand `k`
      and of the hands after it. */
  lemma {:induction false} AllDerivedAround(hands: seq<Hand>, k: nat)
    requires k < |hands|
    ensures AllDerived(hands) <==> AllDerived(hands[..k]) && hands[k].Derived() && AllDerived(hands[k + 1..])
  {
    AllDerivedIff(hands);
    AllDerivedIff(hands[..k]);
    AllDerivedIff(hands[k + 1..]);
    assert forall i :: k + 1 <= i < |hands| ==> hands[k + 1..][i - k - 1] == hands[i];
  }

  /** A split's new list: hand `index` replaced and one hand appended. */
  lemma {:induction false} AllDerivedSplit(hands: seq<Hand>, index: nat, first: Hand, second: Hand)
    requires AllDerived(hands) && index < |hands| && first.Derived() && second.Derived()
    ensures AllDerived(hands[index := first] + [second])
  {
    AllDerivedIff(hands);
    AllDerivedIff(hands[index := first] + [second]);
  }

  /** Summing hand by hand is summing the weights of all cards held. */
  lemma {:induction false} HandsCountIsCardCount(hands: seq<Hand>)
    ensures HandsCount(hands) == CountSum(AllCards(hands))
  {
    if |hands| > 0 {
      HandsCountIsCardCount(hands[..|hands| - 1]);
      CountSumAppend(AllCards(hands[..|hands| - 1]), hands[|hands| - 1].cards);
    }
  }

  /** `createSplitHand`: a new hand holding the kept card and one drawn card. */
  method CreateSplitHand(card: Card, shoe: Shoe) returns (r: Result<Hand>)
    requires shoe.Valid()
    modifies shoe
    ensures shoe.Valid()
    ensures old(shoe.len) == 0 ==> r == Err(EmptyShoe) && shoe.Drew(0)
    ensures old(shoe.len) > 0 ==>
      && r.Ok? && fresh(r.value) && r.value.Valid() && r.value.Derived() && !r.value.isDoubled
      && r.value.cards == [card, old(shoe.cards[shoe.len - 1])]
      && shoe.Drew(1)
  {
    var hand := new Hand();
    hand.AddCard(card);
    var drawn :- shoe.Draw();
    hand.AddCard(drawn);
    return Ok(hand);
  }

  class Player {
    var hands: seq<Hand>
    var bets: seq<real>
    var bankroll: real

    /** One to four distinct valid hands, and one bet per hand. */
    ghost predicate Valid()
      reads this, hands
    {
      && 1 <= |hands| <= 4
      && |bets| == |hands|
      && (forall i :: 0 <= i < |hands| ==> hands[i].Valid())
      && (forall i, j :: 0 <= i < j < |hands| ==> hands[i] != hands[j])
    }

    constructor (bankroll: real)
      ensures Valid() && this.bankroll == bankroll
      ensures |hands| == 1 && fresh(hands[0]) && hands[0].cards == [] && !hands[0].isDoubled && hands[0].Derived()
      ensures bets == [0.0]
    {
      var hand := new Hand();
      hands := [hand];
      this.bankroll := bankroll;
      bets := [0.0];
    }

    /** `runningCount`: the hands' counts summed, which is the count of
        every card held, hand after hand. */
    function RunningCount(): (r: int)
      reads this, hands
      ensures r == CountSum(AllCards(hands))
    {
      HandsCountIsCardCount(hands);
      HandsCount(hands)
    }

    /** `getHand(index)`: the hand at `index`, none of the others. */
    function GetHand(index: nat): (h: Hand)
      reads this
      requires index < |hands|
      ensures h == hands[index] && h in hands
      ensures Valid() ==> h.Valid() && forall j :: 0 <= j < |hands| && j != index ==> hands[j] != h
    {
      hands[index]
    }

    /** `#deductBankroll`: refuse an amount above the bankroll, else debit it. */
    method DeductBankroll(amount: real) returns (r: Result<()>)
      modifies this
      ensures hands == old(hands) && bets == old(bets)
      ensures amount > old(bankroll) ==> r == Err(InsufficientFunds) && bankroll == old(bankroll)
      ensures amount <= old(bankroll) ==> r == Ok(()) && bankroll == old(bankroll) - amount
    {
      if amount > bankroll {
        return Err(InsufficientFunds);
      }
      bankroll := bankroll - amount;
      return Ok(());
    }

    method PlaceBet(amount: real, index: nat) returns (r: Result<()>)
      requires Valid() && index < |bets|
      modifies this
      ensures Valid() && hands == old(hands)
      ensures amount > old(bankroll) ==> r == Err(InsufficientFunds) && bankroll == old(bankroll) && bets == old(bets)
      ensures amount <= old(bankroll) ==>
        r == Ok(()) && bankroll == old(bankroll) - amount && bets == old(bets)[index := amount]
    {
      var ok :- DeductBankroll(amount);
      bets := bets[index := amount];
      return Ok(());
    }

    method AddWinnings(amount: real)
      modifies this
      ensures bankroll == old(bankroll) + amount
      ensures hands == old(hands) && bets == old(bets)
    {
      bankroll := bankroll + amount;
    }

    /** One new empty hand and a single bet of 0; the bankroll stays. */
    method ResetHand()
      modifies this
      ensures Valid() && bankroll == old(bankroll)
      ensures |hands| == 1 && fresh(hands[0]) && hands[0].cards == [] && !hands[0].isDoubled && hands[0].Derived()
      ensures bets == [0.0]
    {
      var hand := new Hand();
      hands := [hand];
      bets := [0.0];
    }

    /** What `doubleDown(shoe, index)` leaves: the hand's bet is debited
        again (refused with no change if unaffordable), the hand is doubled,
        then the bet is doubled. The bet doubles even when the hand's own
        double is a no-op; if the hand's draw throws, the debit and the
        hand's doubled mark stay and the bet is not doubled. */
    twostate predicate DoubleDownEffect(shoe: Shoe, index: nat, new r: Result<()>)
      reads this, hands, shoe
    {
      && old(shoe.Valid()) && hands == old(hands) && index < |hands| && old(|bets|) == |hands|
      && (old(hands[index].Derived()) ==> hands[index].Derived())
      && (old(bets[index]) > old(bankroll) ==>
            && r == Err(InsufficientFunds) && bankroll == old(bankroll) && bets == old(bets)
            && unchanged(hands[index]) && unchanged(shoe))
      && (old(bets[index]) <= old(bankroll) ==> bankroll == old(bankroll) - old(bets[index]))
      && (old(bets[index]) <= old(bankroll) && old(|hands[index].cards|) != 2 ==>
            && r == Ok(()) && bets == old(bets)[index := 2.0 * old(bets[index])]
            && unchanged(hands[index]) && unchanged(shoe))
      && (old(bets[index]) <= old(bankroll) && old(|hands[index].cards|) == 2 && old(shoe.len) == 0 ==>
            && r == Err(EmptyShoe) && bets == old(bets)
            && hands[index].isDoubled && hands[index].cards == old(hands[index].cards) && shoe.Drew(0))
      && (old(bets[index]) <= old(bankroll) && old(|hands[index].cards|) == 2 && old(shoe.len) > 0 ==>
            && r == Ok(()) && bets == old(bets)[index := 2.0 * old(bets[index])]
            && hands[index].isDoubled
            && hands[index].cards == old(hands[index].cards) + [old(shoe.cards[shoe.len - 1])]
            && shoe.Drew(1))
    }

    method DoubleDown(shoe: Shoe, index: nat) returns (r: Result<()>)
      requires Valid() && shoe.Valid() && index < |hands|
      modifies this, hands[index], shoe
      ensures Valid() && shoe.Valid() && hands == old(hands)
      ensures DoubleDownEffect(shoe, index, r)
    {
      var hand := GetHand(index);
      var bet := bets[index];
      var ok :- DeductBankroll(bet);
      ok :- hand.DoubleDown(shoe);
      bets := bets[index := bet * 2.0];
      return Ok(());
    }

    /** What `splitHand(shoe, index)` leaves. A pair, with fewer than four
        hands, is split: the bet is debited once more (refused with no change
        if unaffordable), each card gets a new hand with one drawn card, the
        first replacing the pair and the second appended, and the bet is
        appended. Otherwise nothing happens. */
    twostate predicate SplitHandEffect(shoe: Shoe, index: nat, new r: Result<()>)
      reads this, hands, shoe
    {
      && old(Valid()) && old(shoe.Valid()) && index < old(|hands|)
      && (forall h :: h in hands ==> h in old(hands) || fresh(h))
      && (old(hands[index].handType) != Pair || old(|hands|) >= 4 ==>
            r == Ok(()) && unchanged(this) && unchanged(shoe))
      && (old(hands[index].handType) == Pair && old(|hands|) < 4 && old(bets[index]) > old(bankroll) ==>
            && r == Err(InsufficientFunds) && hands == old(hands) && bets == old(bets)
            && bankroll == old(bankroll) && unchanged(shoe))
      && (old(hands[index].handType) == Pair && old(|hands|) < 4 && old(bets[index]) <= old(bankroll) ==>
            bankroll == old(bankroll) - old(bets[index]))
      && (old(hands[index].handType) == Pair && old(|hands|) < 4 && old(bets[index]) <= old(bankroll) && old(shoe.len) < 2 ==>
            r == Err(EmptyShoe) && hands == old(hands) && bets == old(bets) && shoe.len == 0)
      && (old(hands[index].handType) == Pair && old(|hands|) < 4 && old(bets[index]) <= old(bankroll) && old(shoe.len) >= 2 ==>
            && r == Ok(())
            && |hands| == old(|hands|) + 1
            && hands == old(hands)[index := hands[index]] + [hands[old(|hands|)]]
            && fresh(hands[index]) && fresh(hands[old(|hands|)])
            && hands[index].cards == [old(hands[index].cards[0]), old(shoe.cards[shoe.len - 1])]
            && hands[old(|hands|)].cards == [old(hands[index].cards[1]), old(shoe.cards[shoe.len - 2])]
            && !hands[index].isDoubled && !hands[old(|hands|)].isDoubled
            && hands[index].Derived() && hands[old(|hands|)].Derived()
            && bets == old(bets) + [old(bets[index])]
            && shoe.Drew(2))
    }

    method SplitHand(shoe: Shoe, index: nat) returns (r: Result<()>)
      requires Valid() && shoe.Valid() && index < |hands|
      modifies this, shoe
      ensures Valid() && shoe.Valid()
      ensures SplitHandEffect(shoe, index, r)
    {
      var hand := GetHand(index);
      if hand.handType != Pair || |hands| >= 4 {
        return Ok(());
      }
      r := SplitPair(shoe, index);
    }

    /** Splitting a pair that may be split: the part of `splitHand` after its
        guard. */
    method SplitPair(shoe: Shoe, index: nat) returns (r: Result<()>)
      requires Valid() && shoe.Valid() && index < |hands| < 4 && hands[index].handType == Pair
      modifies this, shoe
      ensures Valid() && shoe.Valid()
      ensures forall h :: h in hands ==> h in old(hands) || fresh(h)
      ensures old(bets[index]) > old(bankroll) ==>
        && r == Err(InsufficientFunds) && hands == old(hands) && bets == old(bets)
        && bankroll == old(bankroll) && unchanged(shoe)
      ensures old(bets[index]) <= old(bankroll) ==> bankroll == old(bankroll) - old(bets[index])
      ensures old(bets[index]) <= old(bankroll) && old(shoe.len) < 2 ==>
        r == Err(EmptyShoe) && hands == old(hands) && bets == old(bets) && shoe.len == 0
      ensures old(bets[index]) <= old(bankroll) && old(shoe.len) >= 2 ==>
        && r == Ok(())
        && |hands| == old(|hands|) + 1
        && hands == old(hands)[index := hands[index]] + [hands[old(|hands|)]]
        && fresh(hands[index]) && fresh(hands[old(|hands|)])
        && hands[index].cards == [old(hands[index].cards[0]), old(shoe.cards[shoe.len - 1])]
        && hands[old(|hands|)].cards == [old(hands[index].cards[1]), old(shoe.cards[shoe.len - 2])]
        && !hands[index].isDoubled && !hands[old(|hands|)].isDoubled
        && hands[index].Derived() && hands[old(|hands|)].Derived()
        && bets == old(bets) + [old(bets[index])]
        && shoe.Drew(2)
    {
      var bet := bets[index];
      var ok :- DeductBankroll(bet);
      r := DealSplit(shoe, index);
    }

    /** The split after the debit: one new hand per card of the pair, then
        their installation; a shoe that runs out throws before anything is
        installed. */
    method DealSplit(shoe: Shoe, index: nat) returns (r: Result<()>)
      requires Valid() && shoe.Valid() && index < |hands| < 4 && hands[index].handType == Pair
      modifies this, shoe
      ensures Valid() && shoe.Valid() && bankroll == old(bankroll)
      ensures forall h :: h in hands ==> h in old(hands) || fresh(h)
      ensures old(shoe.len) < 2 ==>
        r == Err(EmptyShoe) && hands == old(hands) && bets == old(bets) && shoe.len == 0
      ensures old(shoe.len) >= 2 ==>
        && r == Ok(())
        && |hands| == old(|hands|) + 1
        && hands == old(hands)[index := hands[index]] + [hands[old(|hands|)]]
        && fresh(hands[index]) && fresh(hands[old(|hands|)])
        && hands[index].cards == [old(hands[index].cards[0]), old(shoe.cards[shoe.len - 1])]
        && hands[old(|hands|)].cards == [old(hands[index].cards[1]), old(shoe.cards[shoe.len - 2])]
        && !hands[index].isDoubled && !hands[old(|hands|)].isDoubled
        && hands[index].Derived() && hands[old(|hands|)].Derived()
        && bets == old(bets) + [old(bets[index])]
        && shoe.Drew(2)
    {
      var hand := GetHand(index);
      var card1, card2 := hand.cards[0], hand.cards[1];
      var newHand1 :- CreateSplitHand(card1, shoe);
      var newHand2 :- CreateSplitHand(card2, shoe);
      InstallSplit(index, newHand1, newHand2, bets[index]);
      return Ok(());
    }

    /** The last step of a split: the first new hand takes the pair's place,
        the second and its bet are appended. */
    method InstallSplit(index: nat, first: Hand, second: Hand, bet: real)
      requires Valid() && index < |hands| < 4
      requires first.Valid() && second.Valid() && first != second
      requires first !in hands && second !in hands
      modifies this
      ensures Valid() && bankroll == old(bankroll)
      ensures hands == old(hands)[index := first] + [second]
      ensures bets == old(bets) + [bet]
    {
      hands := hands[index := first] + [second];
      bets := bets + [bet];
    }
  }

  class Dealer {
    var hand: Hand

    ghost predicate Valid()
      reads this, hand
    {
      hand.Valid()
    }

    constructor ()
      ensures Valid() && fresh(hand)
      ensures hand.cards == [] && hand.handValue == 0 && hand.handType == Hard
      ensures !hand.isDoubled && !hand.isSoft && hand.Derived()
    {
      hand := new Hand();
    }

    /** A new, distinct, empty hand; calling it again gives the same
        observable state. */
    method ResetHand()
      modifies this
      ensures Valid() && fresh(hand)
      ensures hand.cards == [] && hand.handValue == 0 && hand.handType == Hard
      ensures !hand.isDoubled && !hand.isSoft && hand.Derived()
    {
      hand := new Hand();
    }
  }
}
