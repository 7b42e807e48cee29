/** src/game/Game.js: one round of blackjack over a shoe, a player and a
    dealer — deal, the player's turn, the dealer's turn, the verdicts and the
    reset, with the running count recomputed from the cards held. */
module Games {
  import opened Results
  import opened Decks
  import opened Shoes
  import opened Hands
  import opened Strategy
  import opened Actors

  /** The cards popped off the end of `pile` until `k` remain, in the order
      they were drawn. */
  function DrawOrder<T>(pile: seq<T>, k: nat): seq<T>
    requires k <= |pile|
    decreases |pile| - k
  {
    if k == |pile| then [] else DrawOrder(pile, k + 1) + [pile[k]]
  }

  /** The i-th card drawn is the i-th from the top. */
  lemma {:induction false} DrawOrderAt<T>(pile: seq<T>, k: nat)
    requires k <= |pile|
    ensures |DrawOrder(pile, k)| == |pile| - k
    ensures forall i :: 0 <= i < |pile| - k ==> DrawOrder(pile, k)[i] == pile[|pile| - 1 - i]
    decreases |pile| - k
  {
    if k < |pile| {
      DrawOrderAt(pile, k + 1);
    }
  }

  /** `hand.addCard(shoe.draw())`: the draw throws on an empty shoe before
      the hand is touched. */
  method DrawInto(shoe: Shoe, hand: Hand) returns (r: Result<()>)
    requires shoe.Valid() && hand.Valid()
    modifies shoe, hand
    ensures shoe.Valid() && hand.Valid() && hand.isDoubled == old(hand.isDoubled)
    ensures old(hand.Derived()) ==> hand.Derived()
    ensures old(shoe.len) == 0 ==> r == Err(EmptyShoe) && shoe.Drew(0) && unchanged(hand)
    ensures old(shoe.len) > 0 ==>
      && r == Ok(()) && shoe.Drew(1) && shoe.Remaining() == old(shoe.Remaining())[..shoe.len]
      && hand.cards == AfterAddCard(old(hand.cards), old(hand.isDoubled), old(shoe.Remaining())[shoe.len])
  {
    var card :- shoe.Draw();
    hand.AddCard(card);
    return Ok(());
  }

  /** `DrawInto` on hand `index` of a list of distinct hands: the other hands
      are untouched, so a list that agreed with its cards still does. */
  method DrawIntoAt(shoe: Shoe, hands: seq<Hand>, index: nat) returns (r: Result<()>)
    requires shoe.Valid() && index < |hands| && hands[index].Valid()
    requires forall j :: 0 <= j < |hands| && j != index ==> hands[j] != hands[index]
    modifies shoe, hands[index]
    ensures shoe.Valid() && hands[index].Valid() && hands[index].isDoubled == old(hands[index].isDoubled)
    ensures old(shoe.len) == 0 ==> r == Err(EmptyShoe) && shoe.Drew(0) && unchanged(hands[index])
    ensures old(shoe.len) > 0 ==>
      && r == Ok(()) && shoe.Drew(1) && shoe.Remaining() == old(shoe.Remaining())[..shoe.len]
      && hands[index].cards == AfterAddCard(old(hands[index].cards), old(hands[index].isDoubled), old(shoe.Remaining())[shoe.len])
    ensures old(AllDerived(hands)) ==> AllDerived(hands)
  {
    ghost var before, after := hands[..index], hands[index + 1..];
    assert hands[index] !in before && hands[index] !in after;
    AllDerivedAround(hands, index);
    r := DrawInto(shoe, hands[index]);
    assert AllDerived(before) == old(AllDerived(before)) && AllDerived(after) == old(AllDerived(after));
    AllDerivedAround(hands, index);
  }

  /** How one player hand fares against the dealer's hand. */
  datatype Verdict = PlayerBust | DealerBust | PlayerWins | DealerWins | Draw

  /** A busted player loses even when the dealer busts too; then a busted
      dealer loses; then the higher total wins. */
  function Judge(playerValue: int, dealerValue: int): (v: Verdict)
    ensures v == PlayerBust <==> playerValue > 21
    ensures v == DealerBust <==> playerValue <= 21 && dealerValue > 21
    ensures v == PlayerWins <==> playerValue <= 21 && dealerValue <= 21 && playerValue > dealerValue
    ensures v == DealerWins <==> playerValue <= 21 && dealerValue <= 21 && playerValue < dealerValue
    ensures v == Draw <==> playerValue == dealerValue <= 21
  {
    if playerValue > 21 then PlayerBust
    else if dealerValue > 21 then DealerBust
    else if playerValue > dealerValue then PlayerWins
    else if playerValue < dealerValue then DealerWins
    else Draw
  }

  /** The player comes out ahead (either winning message) exactly when the
      player did not bust and the dealer either busted or stayed below. */
  lemma PlayerAheadExactly(playerValue: int, dealerValue: int)
    ensures Judge(playerValue, dealerValue) in {DealerBust, PlayerWins} <==>
      playerValue <= 21 && (dealerValue > 21 || playerValue > dealerValue)
    ensures Judge(playerValue, dealerValue) in {PlayerBust, DealerWins} <==>
      playerValue > 21 || (dealerValue <= 21 && playerValue < dealerValue)
  {
  }

  /** The line the game prints for a verdict. */
  function Message(v: Verdict): (m: string)
    ensures '\n' !in m
  {
    match v
    case PlayerBust => "Az osztó nyert! (Játékos túllépte a 21-et)"
    case DealerBust => "A játékos nyert! (Osztó túllépte a 21-et)"
    case PlayerWins => "A játékos nyert!"
    case DealerWins => "Az osztó nyert!"
    case Draw => "Döntetlen!"
  }

  /** All five verdict lines. */
  function Messages(): (ms: set<string>)
    ensures forall v :: Message(v) in ms
  {
    set v: Verdict | v in {PlayerBust, DealerBust, PlayerWins, DealerWins, Draw} :: Message(v)
  }

  /** `lines.join("\n")` for at least one line. */
  function JoinLines(lines: seq<string>): (r: string)
    requires |lines| >= 1
    ensures |r| >= |lines[0]| && r[..|lines[0]|] == lines[0]
    ensures (forall i :: 0 <= i < |lines| ==> '\n' !in lines[i]) ==> multiset(r)['\n'] == |lines| - 1
  {
    if |lines| == 1 then lines[0] else lines[0] + "\n" + JoinLines(lines[1..])
  }

  /** The index of the first line break of a text that has one. */
  function FirstBreak(s: string): (k: nat)
    requires '\n' in s
    ensures k < |s| && s[k] == '\n' && '\n' !in s[..k]
  {
    if s[0] == '\n' then 0
    else
      var k := FirstBreak(s[1..]) + 1;
      assert s[..k] == [s[0]] + s[1..][..k - 1];
      k
  }

  /** `s.split("\n")`. */
  function SplitLines(s: string): (lines: seq<string>)
    ensures |lines| >= 1
    decreases |s|
  {
    if '\n' !in s then [s]
    else
      var k := FirstBreak(s);
      [s[..k]] + SplitLines(s[k + 1..])
  }

  /** Lines without line breaks come back, one for one and in order, from
      their join. */
  lemma {:induction false} SplitJoin(lines: seq<string>)
    requires |lines| >= 1
    requires forall i :: 0 <= i < |lines| ==> '\n' !in lines[i]
    ensures SplitLines(JoinLines(lines)) == lines
  {
    if |lines| > 1 {
      BreakAfter(lines[0], JoinLines(lines[1..]));
      SplitJoin(lines[1..]);
    }
  }

  /** A line without a break, a break, and the rest: the split point is
      the end of the line. */
  lemma BreakAfter(line: string, rest: string)
    requires '\n' !in line
    ensures var s := line + "\n" + rest;
      && '\n' in s && FirstBreak(s) == |line|
      && s[..|line|] == line && s[|line| + 1..] == rest
  {
    var s := line + "\n" + rest;
    assert s[|line|] == '\n';
    var k := FirstBreak(s);
    assert forall i :: 0 <= i < |line| ==> s[i] == line[i];
    assert k <= |line| by {
      assert forall i :: 0 <= i < k ==> s[..k][i] == s[i];
    }
    assert s[..|line|] == line;
    assert s[|line| + 1..] == rest;
  }

  /** The verdict line of each player hand, in order. */
  function Verdicts(hands: seq<Hand>, dealerValue: int): (lines: seq<string>)
    reads hands
    ensures |lines| == |hands|
    ensures forall i :: 0 <= i < |hands| ==> lines[i] == Message(Judge(hands[i].handValue, dealerValue))
  {
    if |hands| == 0 then []
    else Verdicts(hands[..|hands| - 1], dealerValue) + [Message(Judge(hands[|hands| - 1].handValue, dealerValue))]
  }

  /** With every hand agreeing with its cards, each verdict is decided by
      the cards themselves. */
  lemma VerdictsOfCards(hands: seq<Hand>, dealerHand: Hand)
    ensures AllDerived(hands) && dealerHand.Derived() ==>
      forall i :: 0 <= i < |hands| ==>
        Verdicts(hands, dealerHand.handValue)[i] == Message(Judge(ValueOf(hands[i].cards), ValueOf(dealerHand.cards)))
  {
    AllDerivedIff(hands);
  }

  class Game {
    var shoe: Shoe
    var player: Player
    var dealer: Dealer
    const hitOnSoft17: bool
    var runningCount: int
    /** The basic-strategy table, not part of this model. */
    const table: Table
    /** SUITS and VALUES of the configuration, used to rebuild the shoe. */
    const suits: seq<string>
    const values: seq<string>

    /** Every part valid; the dealer's hand is none of the player's and is
        never doubled. */
    ghost predicate Valid()
      reads this`shoe, this`player, this`dealer, shoe, player, player.hands, dealer, dealer.hand
    {
      && shoe.Valid() && player.Valid() && dealer.Valid()
      && dealer.hand !in player.hands
      && !dealer.hand.isDoubled
      && dealer.hand.Derived()
    }

    /** Every card in play: the player's hands in order, then the dealer's. */
    ghost function HeldCards(): seq<Card>
      reads this`player, this`dealer, player, player.hands, dealer, dealer.hand
    {
      AllCards(player.hands) + dealer.hand.cards
    }

    /** The running count is the Hi-Lo count of every card held. */
    ghost predicate CountCurrent()
      reads this`runningCount, this`player, this`dealer, player, player.hands, dealer, dealer.hand
    {
      runningCount == CountSum(HeldCards())
    }

    /** `hitOnSoft17` defaults to true in JS; the player's bankroll, which the
        source leaves undefined, is a parameter here, and so are the shuffle's
        random numbers. */
    constructor (numDecks: nat, endMarkerRatio: real, hitOnSoft17: bool, bankroll: real,
                 suits: seq<string>, values: seq<string>, table: Table, rand: seq<real>)
      requires |rand| >= numDecks * (|suits| * |values|) && RandomInRange(rand)
      ensures Valid()
      ensures fresh(shoe) && fresh(shoe.cards) && fresh(player) && fresh(dealer)
      ensures shoe.numDecks == numDecks && shoe.endMarkerIndex == EndMarkerIndex(numDecks, endMarkerRatio)
      ensures !shoe.reachedEndMarker && shoe.len == numDecks * (|suits| * |values|)
      ensures shoe.Remaining() == FisherYates(Unshuffled(numDecks, suits, values), rand)
      ensures player.bankroll == bankroll && player.bets == [0.0]
      ensures |player.hands| == 1 && player.hands[0].cards == [] && !player.hands[0].isDoubled
      ensures dealer.hand.cards == [] && AllDerived(player.hands)
      ensures this.hitOnSoft17 == hitOnSoft17 && runningCount == 0 && this.table == table
      ensures this.suits == suits && this.values == values
    {
      this.hitOnSoft17 := hitOnSoft17;
      this.table := table;
      this.suits := suits;
      this.values := values;
      shoe := new Shoe(numDecks, endMarkerRatio, suits, values, rand);
      player := new Player(bankroll);
      dealer := new Dealer();
      runningCount := 0;
    }

    /** Recompute the count from the cards held now. */
    method UpdateRunningCount()
      requires Valid()
      modifies this`runningCount
      ensures Valid() && runningCount == CountSum(HeldCards())
      ensures player.hands == old(player.hands) && AllDerived(player.hands) == old(AllDerived(player.hands))
    {
      HandsCountIsCardCount(player.hands);
      CountSumAppend(AllCards(player.hands), dealer.hand.cards);
      runningCount := player.RunningCount() + dealer.hand.RunningCount();
    }

    /** One card from the shoe into player hand `index`. */
    method HitPlayer(index: nat) returns (r: Result<()>)
      requires Valid() && index < |player.hands|
      modifies shoe, player.hands[index]
      ensures Valid()
      ensures old(shoe.len) == 0 ==> r == Err(EmptyShoe) && shoe.Drew(0) && unchanged(player.hands[index])
      ensures old(shoe.len) > 0 ==>
        && r == Ok(()) && shoe.Drew(1) && shoe.Remaining() == old(shoe.Remaining())[..shoe.len]
        && player.hands[index].isDoubled == old(player.hands[index].isDoubled)
        && player.hands[index].cards ==
             AfterAddCard(old(player.hands[index].cards), old(player.hands[index].isDoubled), old(shoe.Remaining())[shoe.len])
      ensures old(AllDerived(player.hands)) ==> AllDerived(player.hands)
    {
      r := DrawIntoAt(shoe, player.hands, index);
    }

    /** One card from the shoe into the dealer's hand. */
    method HitDealer() returns (r: Result<()>)
      requires Valid()
      modifies shoe, dealer.hand
      ensures Valid()
      ensures old(shoe.len) == 0 ==> r == Err(EmptyShoe) && shoe.Drew(0) && unchanged(dealer.hand)
      ensures old(shoe.len) > 0 ==>
        && r == Ok(()) && shoe.Drew(1) && shoe.Remaining() == old(shoe.Remaining())[..shoe.len]
        && dealer.hand.cards == old(dealer.hand.cards) + [old(shoe.Remaining())[shoe.len]]
      ensures AllDerived(player.hands) == old(AllDerived(player.hands))
      ensures player.hands[0].cards == old(player.hands[0].cards)
    {
      r := DrawInto(shoe, dealer.hand);
    }

    /** The first two draws of a round, into the player's first hand. */
    method DealToPlayer() returns (r: Result<()>)
      requires Valid()
      modifies shoe, player.hands[0]
      ensures Valid()
      ensures old(shoe.len) < 2 ==> r == Err(EmptyShoe) && shoe.len == 0
      ensures old(shoe.len) >= 2 ==>
        && r == Ok(()) && shoe.Drew(2) && shoe.Remaining() == old(shoe.Remaining())[..shoe.len]
        && player.hands[0].cards ==
             AfterAddCard(AfterAddCard(old(player.hands[0].cards), old(player.hands[0].isDoubled),
                                       old(shoe.Remaining())[shoe.len + 1]),
                          old(player.hands[0].isDoubled), old(shoe.Remaining())[shoe.len])
      ensures old(AllDerived(player.hands)) ==> AllDerived(player.hands)
    {
      var ok :- HitPlayer(0);
      ok :- HitPlayer(0);
      return Ok(());
    }

    /** The next two draws, into the dealer's hand. */
    method DealToDealer() returns (r: Result<()>)
      requires Valid()
      modifies shoe, dealer.hand
      ensures Valid()
      ensures old(shoe.len) < 2 ==> r == Err(EmptyShoe) && shoe.len == 0
      ensures old(shoe.len) >= 2 ==>
        && r == Ok(()) && shoe.Drew(2) && shoe.Remaining() == old(shoe.Remaining())[..shoe.len]
        && dealer.hand.cards == old(dealer.hand.cards) + [old(shoe.Remaining())[shoe.len + 1], old(shoe.Remaining())[shoe.len]]
      ensures AllDerived(player.hands) == old(AllDerived(player.hands))
      ensures player.hands[0].cards == old(player.hands[0].cards)
    {
      var ok :- HitDealer();
      ok :- HitDealer();
      return Ok(());
    }

    /** The four draws of `dealInitialCards`, without the count. */
    method DealFour() returns (r: Result<()>)
      requires Valid()
      modifies shoe, player.hands[0], dealer.hand
      ensures Valid()
      ensures old(shoe.len) < 4 ==> r == Err(EmptyShoe) && shoe.len == 0
      ensures old(shoe.len) >= 4 ==>
        && r == Ok(())
        && shoe.Drew(4) && shoe.Remaining() == old(shoe.Remaining())[..shoe.len]
        && player.hands[0].cards ==
             AfterAddCard(AfterAddCard(old(player.hands[0].cards), old(player.hands[0].isDoubled),
                                       old(shoe.Remaining())[shoe.len + 3]),
                          old(player.hands[0].isDoubled), old(shoe.Remaining())[shoe.len + 2])
        && dealer.hand.cards == old(dealer.hand.cards) + [old(shoe.Remaining())[shoe.len + 1], old(shoe.Remaining())[shoe.len]]
      ensures old(AllDerived(player.hands)) ==> AllDerived(player.hands)
    {
      var ok :- DealToPlayer();
      ok :- DealToDealer();
      return Ok(());
    }

    /** Two draws into the player's first hand, two into the dealer's, then
        the count. A shoe that runs out throws midway and the count is not
        updated. */
    method DealInitialCards() returns (r: Result<()>)
      requires Valid()
      modifies this`runningCount, shoe, player.hands[0], dealer.hand
      ensures Valid() && player.hands == old(player.hands)
      ensures old(shoe.len) < 4 ==> r == Err(EmptyShoe) && shoe.len == 0 && runningCount == old(runningCount)
      ensures old(shoe.len) >= 4 ==>
        && r == Ok(())
        && shoe.Drew(4) && shoe.Remaining() == old(shoe.Remaining())[..shoe.len]
        && player.hands[0].cards ==
             AfterAddCard(AfterAddCard(old(player.hands[0].cards), old(player.hands[0].isDoubled),
                                       old(shoe.Remaining())[shoe.len + 3]),
                          old(player.hands[0].isDoubled), old(shoe.Remaining())[shoe.len + 2])
        && dealer.hand.cards == old(dealer.hand.cards) + [old(shoe.Remaining())[shoe.len + 1], old(shoe.Remaining())[shoe.len]]
        && runningCount == CountSum(HeldCards())
      ensures old(AllDerived(player.hands)) ==> AllDerived(player.hands)
    {
      r := DealFour();
      if r.Ok? {
        ghost var hands, len, marker, cards := player.hands, shoe.len, shoe.reachedEndMarker, shoe.cards;
        ghost var rest, mine, theirs := shoe.Remaining(), player.hands[0].cards, dealer.hand.cards;
        UpdateRunningCount();
        assert player.hands == hands && shoe.len == len && shoe.reachedEndMarker == marker && shoe.cards == cards;
        assert shoe.Remaining() == rest && player.hands[0].cards == mine && dealer.hand.cards == theirs;
      }
    }

    /** What Hit leaves: the draw throws on an empty shoe and nothing else
        changes; otherwise the shoe's last card goes through `addCard` on
        hand `index`. The hand list, the bets and the bankroll stay. */
    twostate predicate HitEffect(index: nat, new r: Result<()>)
      reads this`shoe, this`player, shoe, player, player.hands
    {
      && shoe == old(shoe) && old(shoe.Valid()) && player.hands == old(player.hands) && index < |player.hands|
      && player.bets == old(player.bets) && player.bankroll == old(player.bankroll)
      && (old(shoe.len) == 0 ==> r == Err(EmptyShoe) && shoe.Drew(0) && unchanged(player.hands[index]))
      && (old(shoe.len) > 0 ==>
            && r == Ok(()) && shoe.Drew(1)
            && player.hands[index].cards ==
                 AfterAddCard(old(player.hands[index].cards), old(player.hands[index].isDoubled),
                              old(shoe.cards[shoe.len - 1])))
    }

    /** `player.doubleDown(shoe, index)`, with every hand still agreeing
        with its cards. */
    method DoublePlayer(index: nat) returns (r: Result<()>)
      requires Valid() && index < |player.hands|
      modifies shoe, player, player.hands[index]
      ensures Valid()
      ensures player.DoubleDownEffect(shoe, index, r)
      ensures old(AllDerived(player.hands)) ==> AllDerived(player.hands)
    {
      ghost var before, after := player.hands[..index], player.hands[index + 1..];
      assert player.hands[index] !in before && player.hands[index] !in after;
      AllDerivedAround(player.hands, index);
      r := player.DoubleDown(shoe, index);
      assert AllDerived(before) == old(AllDerived(before)) && AllDerived(after) == old(AllDerived(after));
      AllDerivedAround(player.hands, index);
    }

    /** `player.splitHand(shoe, index)`, with every hand still agreeing with
        its cards. */
    method SplitPlayer(index: nat) returns (r: Result<()>)
      requires Valid() && index < |player.hands|
      modifies shoe, player
      ensures Valid()
      ensures player.SplitHandEffect(shoe, index, r)
      ensures old(AllDerived(player.hands)) ==> AllDerived(player.hands)
    {
      ghost var hands := player.hands;
      r := player.SplitHand(shoe, index);
      if AllDerived(hands) && |player.hands| > |hands| {
        AllDerivedSplit(hands, index, player.hands[index], player.hands[|hands|]);
      }
    }

    /** Hit, then the count. */
    method HitCounted(index: nat) returns (r: Result<()>)
      requires Valid() && index < |player.hands|
      modifies this`runningCount, shoe, player.hands[index]
      ensures Valid() && HitEffect(index, r)
      ensures r.Ok? ==> runningCount == CountSum(HeldCards())
      ensures r.Err? ==> runningCount == old(runningCount)
      ensures old(AllDerived(player.hands)) ==> AllDerived(player.hands)
    {
      r := HitPlayer(index);
      if r.Ok? {
        UpdateRunningCount();
      }
    }

    /** Double, then the count. */
    method DoubleCounted(index: nat) returns (r: Result<()>)
      requires Valid() && index < |player.hands|
      modifies this`runningCount, shoe, player, player.hands[index]
      ensures Valid() && player.DoubleDownEffect(shoe, index, r)
      ensures r.Ok? ==> runningCount == CountSum(HeldCards())
      ensures r.Err? ==> runningCount == old(runningCount)
      ensures old(AllDerived(player.hands)) ==> AllDerived(player.hands)
    {
      r := DoublePlayer(index);
      if r.Ok? {
        UpdateRunningCount();
      }
    }

    /** Split, then the count. */
    method SplitCounted(index: nat) returns (r: Result<()>)
      requires Valid() && index < |player.hands|
      modifies this`runningCount, shoe, player
      ensures Valid() && player.SplitHandEffect(shoe, index, r)
      ensures r.Ok? ==> runningCount == CountSum(HeldCards())
      ensures r.Err? ==> runningCount == old(runningCount)
      ensures old(AllDerived(player.hands)) ==> AllDerived(player.hands)
    {
      r := SplitPlayer(index);
      if r.Ok? {
        UpdateRunningCount();
      }
    }

    /** Apply a move to player hand `index`, then recompute the count; a move
        that throws leaves the count as it was. */
    method ApplyPlayerNextMove(move: Option<Move>, index: nat) returns (r: Result<()>)
      requires Valid() && index < |player.hands|
      modifies this`runningCount, shoe, player, player.hands[index]
      ensures Valid()
      ensures |player.hands| >= old(|player.hands|)
      ensures forall j :: 0 <= j < old(|player.hands|) && j != index ==> player.hands[j] == old(player.hands[j])
      ensures player.hands[index] == old(player.hands[index]) || fresh(player.hands[index])
      ensures forall j :: old(|player.hands|) <= j < |player.hands| ==>
        fresh(player.hands[j])
      ensures move == Some(Hit) ==> HitEffect(index, r)
      ensures move == Some(Double) ==> player.DoubleDownEffect(shoe, index, r)
      ensures move == Some(Split) ==> player.SplitHandEffect(shoe, index, r)
      ensures move !in {Some(Hit), Some(Double), Some(Split)} ==>
        r == Ok(()) && unchanged(player) && unchanged(shoe) && unchanged(player.hands[index])
      ensures r.Ok? ==> runningCount == CountSum(HeldCards())
      ensures r.Err? ==> runningCount == old(runningCount)
      ensures old(AllDerived(player.hands)) ==> AllDerived(player.hands)
    {
      match move {
        case Some(Hit) =>
          r := HitCounted(index);
        case Some(Double) =>
          r := DoubleCounted(index);
        case Some(Split) =>
          r := SplitCounted(index);
        case _ =>
          r := Ok(());
          UpdateRunningCount();
      }
    }

    /** A hand the player is done with: the strategy says Stand (a doubled
        hand always does) or has no entry. */
    ghost predicate Finished(hand: Hand)
      reads this`dealer, dealer, hand, dealer.hand
    {
      GetPlayerNextMove(hand, dealer.hand, table) in {Some(Stand), None}
    }

    /** The inner loop of `playerTurn` for hand `index`: apply the
        strategy's move until it says Stand or has no entry, or the hand is
        doubled. The source may loop forever (a table that keeps asking to
        split once four hands exist); `fuel` bounds the number of moves. */
    method PlayHand(index: nat, fuel: nat) returns (r: Result<()>)
      requires Valid() && index < |player.hands|
      modifies this`runningCount, shoe, player, player.hands[index]
      ensures Valid()
      ensures |player.hands| >= old(|player.hands|)
      ensures forall j :: 0 <= j < old(|player.hands|) && j != index ==> player.hands[j] == old(player.hands[j])
      ensures player.hands[index] == old(player.hands[index]) || fresh(player.hands[index])
      ensures forall j :: old(|player.hands|) <= j < |player.hands| ==>
        fresh(player.hands[j])
      ensures r.Ok? ==> Finished(player.hands[index])
      ensures r.Ok? && old(CountCurrent()) ==> CountCurrent()
      ensures old(AllDerived(player.hands)) ==> AllDerived(player.hands)
    {
      var move := GetPlayerNextMove(player.hands[index], dealer.hand, table);
      var steps := fuel;
      while move != Some(Stand) && move != None
        invariant Valid()
        invariant old(|player.hands|) <= |player.hands| && index < |player.hands|
        invariant forall j :: 0 <= j < old(|player.hands|) && j != index ==> player.hands[j] == old(player.hands[j])
        invariant player.hands[index] == old(player.hands[index]) || fresh(player.hands[index])
        invariant forall j :: old(|player.hands|) <= j < |player.hands| ==>
          fresh(player.hands[j])
        invariant move == GetPlayerNextMove(player.hands[index], dealer.hand, table)
        invariant old(CountCurrent()) ==> CountCurrent()
        invariant old(AllDerived(player.hands)) ==> AllDerived(player.hands)
        decreases steps
      {
        if steps == 0 {
          return Err(OutOfFuel);
        }
        steps := steps - 1;
        var ok, next :- PlayStep(move, index);
        move := next;
        if player.hands[index].isDoubled {
          break;
        }
      }
      return Ok(());
    }

    /** One pass of `playHand`'s loop: apply the move to hand `index`,
        then read the strategy's next move for the hand now at `index`. */
    method PlayStep(move: Option<Move>, index: nat) returns (r: Result<()>, next: Option<Move>)
      requires Valid() && index < |player.hands|
      modifies this`runningCount, shoe, player, player.hands[index]
      ensures Valid() && |player.hands| >= old(|player.hands|)
      ensures forall j :: 0 <= j < old(|player.hands|) && j != index ==> player.hands[j] == old(player.hands[j])
      ensures player.hands[index] == old(player.hands[index]) || fresh(player.hands[index])
      ensures forall j :: old(|player.hands|) <= j < |player.hands| ==> fresh(player.hands[j])
      ensures next == GetPlayerNextMove(player.hands[index], dealer.hand, table)
      ensures r.Ok? ==> CountCurrent()
      ensures old(AllDerived(player.hands)) ==> AllDerived(player.hands)
    {
      r := ApplyPlayerNextMove(move, index);
      next := GetPlayerNextMove(player.hands[index], dealer.hand, table);
    }

    /** One pass of `playerTurn`'s loop: play hand `i`; the hands before it
        stay finished. */
    method PlayNext(i: nat, fuel: nat) returns (r: Result<()>)
      requires Valid() && i < |player.hands|
      requires forall j :: 0 <= j < i ==> Finished(player.hands[j])
      modifies this`runningCount, shoe, player, player.hands[i]
      ensures Valid() && |player.hands| >= old(|player.hands|)
      ensures forall j :: 0 <= j < old(|player.hands|) && j != i ==> player.hands[j] == old(player.hands[j])
      ensures forall j :: old(|player.hands|) <= j < |player.hands| ==> fresh(player.hands[j])
      ensures r.Ok? ==> forall j :: 0 <= j <= i ==> Finished(player.hands[j])
      ensures r.Ok? && old(CountCurrent()) ==> CountCurrent()
      ensures old(AllDerived(player.hands)) ==> AllDerived(player.hands)
    {
      ghost var prev := player.hands;
      assert dealer.hand != prev[i];
      assert forall j :: 0 <= j < i ==> prev[j] != prev[i];
      r := PlayHand(i, fuel);
      assert forall j :: 0 <= j < i ==> player.hands[j] == prev[j];
    }

    /** Play each hand present at the start, in order (`forEach` fixes the
        count), so hands a split appends are not played. */
    method PlayerTurn(fuel: nat) returns (r: Result<()>)
      requires Valid()
      modifies this`runningCount, shoe, player, player.hands
      ensures Valid()
      ensures |player.hands| >= old(|player.hands|)
      ensures forall j :: old(|player.hands|) <= j < |player.hands| ==>
        fresh(player.hands[j])
      ensures r.Ok? ==> forall j :: 0 <= j < old(|player.hands|) ==> Finished(player.hands[j])
      ensures r.Ok? && old(CountCurrent()) ==> CountCurrent()
      ensures old(AllDerived(player.hands)) ==> AllDerived(player.hands)
    {
      var n := |player.hands|;
      var i := 0;
      ghost var counted := CountCurrent();
      ghost var agreed := AllDerived(player.hands);
      while i < n
        invariant Valid()
        invariant i <= n <= |player.hands|
        invariant forall j :: i <= j < n ==> player.hands[j] == old(player.hands[j])
        invariant forall j :: n <= j < |player.hands| ==>
          fresh(player.hands[j])
        invariant forall j :: 0 <= j < i ==> Finished(player.hands[j])
        invariant counted ==> CountCurrent()
        invariant agreed ==> AllDerived(player.hands)
      {
        var ok :- PlayNext(i, fuel);
        i := i + 1;
      }
      return Ok(());
    }

    /** One pass of `dealerTurn`'s loop: the hit extends the cards drawn
        from `pile` onto `start` by one. */
    method DealerHitOnce(ghost pile: seq<Card>, ghost start: seq<Card>) returns (r: Result<()>)
      requires Valid() && shoe.len <= |pile| && shoe.Remaining() == pile[..shoe.len]
      requires dealer.hand.cards == start + DrawOrder(pile, shoe.len)
      modifies shoe, dealer.hand
      ensures Valid() && shoe.len <= old(shoe.len) && shoe.Drew(old(shoe.len) - shoe.len)
      ensures shoe.Remaining() == pile[..shoe.len]
      ensures dealer.hand.cards == start + DrawOrder(pile, shoe.len)
      ensures r.Ok? ==> r == Ok(()) && shoe.len == old(shoe.len) - 1
      ensures r.Err? ==> r == Err(EmptyShoe) && shoe.len == 0
      ensures AllDerived(player.hands) == old(AllDerived(player.hands))
    {
      r := HitDealer();
    }

    /** What the dealer's draws leave: the shoe's cards in draw order
        appended to the dealer's hand, and on a normal exit a dealer that
        does not hit, which on the dealer's cards is a total of 17 or more
        and not a soft 17 under the hit-soft-17 rule; an exhausted shoe
        throws. */
    twostate predicate DealerDrawsEffect(new r: Result<()>)
      reads this`shoe, this`player, this`dealer, shoe, shoe.cards, player, player.hands, dealer, dealer.hand
    {
      && shoe == old(shoe) && old(shoe.Valid()) && shoe.Valid()
      && shoe.len <= old(shoe.len) && shoe.Drew(old(shoe.len) - shoe.len)
      && shoe.Remaining() == old(shoe.Remaining())[..shoe.len]
      && dealer.hand.cards == old(dealer.hand.cards) + DrawOrder(old(shoe.Remaining()), shoe.len)
      && (r.Ok? ==> GetDealerNextMove(player.hands, dealer.hand, hitOnSoft17) != Some(Hit))
      && (r.Ok? && dealer.hand.Derived() && AnyLive(player.hands) ==>
            ValueOf(dealer.hand.cards) >= 17 && !(hitOnSoft17 && ValueOf(dealer.hand.cards) == 17 && SoftOf(dealer.hand.cards)))
      && (r.Err? ==> r == Err(EmptyShoe) && shoe.len == 0)
    }

    /** Hit the dealer's hand while the strategy says Hit. Each hit takes a
        card, so the loop ends; an exhausted shoe throws. */
    method DealerDraws() returns (r: Result<()>)
      requires Valid()
      modifies shoe, dealer.hand
      ensures Valid()
      ensures shoe.len <= old(shoe.len) && shoe.Drew(old(shoe.len) - shoe.len)
      ensures shoe.Remaining() == old(shoe.Remaining())[..shoe.len]
      ensures dealer.hand.cards == old(dealer.hand.cards) + DrawOrder(old(shoe.Remaining()), shoe.len)
      ensures r.Ok? ==> GetDealerNextMove(player.hands, dealer.hand, hitOnSoft17) != Some(Hit)
      ensures r.Err? ==> r == Err(EmptyShoe) && shoe.len == 0
      ensures AllDerived(player.hands) == old(AllDerived(player.hands))
    {
      ghost var pile := shoe.Remaining();
      ghost var start := dealer.hand.cards;
      while GetDealerNextMove(player.hands, dealer.hand, hitOnSoft17) == Some(Hit)
        invariant Valid()
        invariant shoe.len <= |pile| && shoe.Drew(|pile| - shoe.len)
        invariant shoe.Remaining() == pile[..shoe.len]
        invariant dealer.hand.cards == start + DrawOrder(pile, shoe.len)
        invariant AllDerived(player.hands) == old(AllDerived(player.hands))
        decreases shoe.len
      {
        var ok :- DealerHitOnce(pile, start);
      }
      return Ok(());
    }

    /** The dealer's draws, then the count. Only the dealer's hand and the
        shoe change. */
    method DealerTurn() returns (r: Result<()>)
      requires Valid()
      modifies this`runningCount, shoe, dealer.hand
      ensures Valid() && DealerDrawsEffect(r)
      ensures r.Ok? ==> runningCount == CountSum(HeldCards())
      ensures r.Err? ==> runningCount == old(runningCount)
      ensures AllDerived(player.hands) == old(AllDerived(player.hands))
    {
      r := DealerDraws();
      if r.Ok? {
        UpdateRunningCount();
        DealerRuleOnCards(player.hands, dealer.hand, hitOnSoft17);
      }
    }

    /** One verdict line per player hand, in order, joined with line breaks. */
    function EvaluateWinner(): (s: string)
      reads this`player, this`dealer, player, player.hands, dealer, dealer.hand
      ensures |player.hands| == 0 ==> s == ""
      ensures |player.hands| >= 1 ==> SplitLines(s) == Verdicts(player.hands, dealer.hand.handValue)
      ensures |player.hands| >= 1 && AllDerived(player.hands) && dealer.hand.Derived() ==>
        forall k :: 0 <= k < |player.hands| ==>
          SplitLines(s)[k] == Message(Judge(ValueOf(player.hands[k].cards), ValueOf(dealer.hand.cards)))
    {
      var lines := Verdicts(player.hands, dealer.hand.handValue);
      if |lines| == 0 then ""
      else
        SplitJoin(lines);
        VerdictsOfCards(player.hands, dealer.hand);
        JoinLines(lines)
    }

    /** Both actors get fresh empty hands; a shoe past its end marker is
        replaced by a new shuffled shoe of as many decks. The source passes
        an end-marker ratio it never set, so the new shoe falls back to the
        default 0.25. The count is not reset. */
    method ResetGame(rand: seq<real>)
      requires Valid()
      requires shoe.reachedEndMarker ==> |rand| >= shoe.numDecks * (|suits| * |values|) && RandomInRange(rand)
      modifies this`shoe, player, dealer
      ensures Valid()
      ensures player.bankroll == old(player.bankroll) && player.bets == [0.0]
      ensures |player.hands| == 1 && fresh(player.hands[0]) && player.hands[0].cards == [] && !player.hands[0].isDoubled
      ensures fresh(dealer.hand) && dealer.hand.cards == [] && AllDerived(player.hands)
      ensures !old(shoe.reachedEndMarker) ==> shoe == old(shoe)
      ensures old(shoe.reachedEndMarker) ==>
        && fresh(shoe) && shoe.numDecks == old(shoe.numDecks)
        && shoe.endMarkerIndex == EndMarkerIndex(shoe.numDecks, DefaultEndMarkerRatio)
        && !shoe.reachedEndMarker && shoe.len == shoe.numDecks * (|suits| * |values|)
        && shoe.Remaining() == FisherYates(Unshuffled(shoe.numDecks, suits, values), rand)
    {
      player.ResetHand();
      dealer.ResetHand();
      if shoe.reachedEndMarker {
        shoe := new Shoe(shoe.numDecks, DefaultEndMarkerRatio, suits, values, rand);
      }
    }

    /** The deal and the player's turn: a shoe of fewer than four cards
        throws; otherwise the dealer holds the third and fourth cards drawn,
        every hand present at the start ends on Stand or on no entry, and
        the count covers every card held. */
    method DealAndPlayerTurn(fuel: nat) returns (r: Result<()>)
      requires Valid()
      modifies this`runningCount, shoe, player, player.hands, dealer.hand
      ensures Valid() && |player.hands| >= old(|player.hands|)
      ensures old(shoe.len) < 4 ==> r == Err(EmptyShoe)
      ensures r.Ok? ==>
        && old(shoe.len) >= 4
        && dealer.hand.cards ==
             old(dealer.hand.cards) + [old(shoe.Remaining())[old(shoe.len) - 3], old(shoe.Remaining())[old(shoe.len) - 4]]
        && (forall j :: 0 <= j < old(|player.hands|) ==> Finished(player.hands[j]))
        && CountCurrent()
      ensures old(AllDerived(player.hands)) ==> AllDerived(player.hands)
    {
      var ok :- DealInitialCards();
      ghost var dealt := dealer.hand.cards;
      ghost var agreed := AllDerived(player.hands);
      assert CountCurrent();
      r := PlayerTurn(fuel);
      assert dealer.hand.cards == dealt;
      assert agreed ==> AllDerived(player.hands);
    }

    /** `play` up to its verdicts: one verdict line for each hand in play
        at the end, at least one per hand at the start. */
    method RoundVerdicts(fuel: nat) returns (r: Result<string>)
      requires Valid()
      modifies this`runningCount, shoe, player, player.hands, dealer.hand
      ensures Valid()
      ensures r.Ok? ==>
        SplitLines(r.value) == Verdicts(player.hands, dealer.hand.handValue) && |player.hands| >= old(|player.hands|)
      ensures r.Ok? && old(AllDerived(player.hands)) ==>
        forall k :: 0 <= k < |player.hands| ==>
          SplitLines(r.value)[k] == Message(Judge(ValueOf(player.hands[k].cards), ValueOf(dealer.hand.cards)))
    {
      var ok :- DealAndPlayerTurn(fuel);
      ghost var hands := player.hands;
      ok :- DealerTurn();
      assert player.hands == hands;
      var result := EvaluateWinner();
      return Ok(result);
    }

    /** A whole round: deal, the player's turn, the dealer's turn, the
        verdicts, the reset. Anything that throws ends the round there,
        before the reset. */
    method Play(fuel: nat, rand: seq<real>) returns (r: Result<string>)
      requires Valid()
      requires |rand| >= shoe.numDecks * (|suits| * |values|) && RandomInRange(rand)
      modifies this`runningCount, this`shoe, shoe, player, player.hands, dealer, dealer.hand
      ensures Valid()
      ensures r.Ok? ==>
        && |SplitLines(r.value)| >= old(|player.hands|)
        && (forall k :: 0 <= k < |SplitLines(r.value)| ==> SplitLines(r.value)[k] in Messages())
        && |player.hands| == 1 && player.hands[0].cards == [] && dealer.hand.cards == []
        && AllDerived(player.hands)
    {
      var result :- RoundVerdicts(fuel);
      ResetGame(rand);
      return Ok(result);
    }
  }
}
