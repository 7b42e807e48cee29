/** src/strategy/Strategy.js: the dealer's fixed rule and the player's move
    from the basic-strategy table. The table (basicStrategy.js) is a
    parameter: a finite partial map from (hand type, total, dealer up card). */
module Strategy {
  import opened Results
  import opened Hands

  datatype Move = Hit | Stand | Double | Split

  /** A hand total as the helpers receive it: a number when they are called
      directly, its decimal string when `getPlayerNextMove` passes
      `String(handValue)`. `<`, `>` and `>=` coerce the string back to the
      number; `===` against a number never holds for it. */
  datatype Total = Num(n: int) | Str(n: int)

  datatype TableKey = TableKey(kind: HandType, total: int, upCard: int)

  /** `basicStrategy`: rows pair/soft/hard, keyed by total then up card. */
  type Table = map<TableKey, Move>

  /** `basicStrategy[kind][total]?.[upCard]`; an up card that is not a number
      (an empty dealer hand) finds no entry. */
  function Lookup(table: Table, kind: HandType, total: int, upCard: Option<int>): (m: Option<Move>)
    ensures m.Some? <==> upCard.Some? && TableKey(kind, total, upCard.value) in table
    ensures m.Some? ==> m.value == table[TableKey(kind, total, upCard.value)]
  {
    if upCard.Some? && TableKey(kind, total, upCard.value) in table
    then Some(table[TableKey(kind, total, upCard.value)])
    else None
  }

  /** Hard totals under 9 hit, over 16 stand, 9..16 follow the table. */
  function HandleHard(handValue: Total, upCard: Option<int>, table: Table): (m: Option<Move>)
    ensures handValue.n < 9 ==> m == Some(Hit)
    ensures handValue.n > 16 ==> m == Some(Stand)
    ensures 9 <= handValue.n <= 16 ==> m == Lookup(table, Hard, handValue.n, upCard)
  {
    if handValue.n < 9 then Some(Hit)
    else if handValue.n > 16 then Some(Stand)
    else Lookup(table, Hard, handValue.n, upCard)
  }

  /** Soft totals over 19 stand, the rest follow the table. */
  function HandleSoft(handValue: Total, upCard: Option<int>, table: Table): (m: Option<Move>)
    ensures handValue.n > 19 ==> m == Some(Stand)
    ensures handValue.n <= 19 ==> m == Lookup(table, Soft, handValue.n, upCard)
  {
    if handValue.n > 19 then Some(Stand)
    else Lookup(table, Soft, handValue.n, upCard)
  }

  /** Pairs: totals 4, 6 and 14 use row 4; 16, or 20 with an Ace, split; any
      other 20 stands; the rest follow their own row. Every one of these
      tests is `===`, so a stringified total always goes to its own row. */
  function HandlePair(handValue: Total, hasAce: bool, upCard: Option<int>, table: Table): (m: Option<Move>)
    ensures handValue.Str? ==> m == Lookup(table, Pair, handValue.n, upCard)
    ensures handValue in {Num(4), Num(6), Num(14)} ==> m == Lookup(table, Pair, 4, upCard)
    ensures handValue == Num(16) || (handValue == Num(20) && hasAce) ==> m == Some(Split)
    ensures handValue == Num(20) && !hasAce ==> m == Some(Stand)
    ensures handValue.Num? && handValue.n !in {4, 6, 14, 16, 20} ==> m == Lookup(table, Pair, handValue.n, upCard)
  {
    if handValue == Num(4) || handValue == Num(6) || handValue == Num(14) then Lookup(table, Pair, 4, upCard)
    else if (handValue == Num(20) && hasAce) || handValue == Num(16) then Some(Split)
    else if handValue == Num(20) then Some(Stand)
    else Lookup(table, Pair, handValue.n, upCard)
  }

  /** 21 or more stands whatever the type; otherwise dispatch on the type. */
  function DetermineMove(handValue: Total, handType: HandType, hasAce: bool, upCard: Option<int>, table: Table): (m: Option<Move>)
    ensures handValue.n >= 21 ==> m == Some(Stand)
    ensures handValue.n < 21 ==> m == match handType
                                     case Pair => HandlePair(handValue, hasAce, upCard, table)
                                     case Soft => HandleSoft(handValue, upCard, table)
                                     case Hard => HandleHard(handValue, upCard, table)
  {
    if handValue.n >= 21 then Some(Stand)
    else if handType == Pair then HandlePair(handValue, hasAce, upCard, table)
    else if handType == Soft then HandleSoft(handValue, upCard, table)
    else HandleHard(handValue, upCard, table)
  }

  /** The table's move for a stringified total (the path `getPlayerNextMove`
      takes): a pair never meets the `===` rules and reads its own row. */
  function TableMove(handValue: int, handType: HandType, upCard: Option<int>, table: Table): (m: Option<Move>)
    ensures m == DetermineMove(Str(handValue), handType, false, upCard, table)
    ensures m == DetermineMove(Str(handValue), handType, true, upCard, table)
    ensures handType != Pair ==> m == DetermineMove(Num(handValue), handType, false, upCard, table)
  {
    if handValue >= 21 then Some(Stand)
    else match handType
      case Pair => Lookup(table, Pair, handValue, upCard)
      case Soft => if handValue > 19 then Some(Stand) else Lookup(table, Soft, handValue, upCard)
      case Hard =>
        if handValue < 9 then Some(Hit)
        else if handValue > 16 then Some(Stand)
        else Lookup(table, Hard, handValue, upCard)
  }

  /** A doubled hand stands; otherwise the move for the stringified total,
      with Double turned into Hit once the hand has more than two cards. */
  function GetPlayerNextMove(hand: Hand, dealerHand: Hand, table: Table): (m: Option<Move>)
    reads hand, dealerHand
    ensures hand.isDoubled ==> m == Some(Stand)
    ensures !hand.isDoubled && hand.handValue >= 21 ==> m == Some(Stand)
    ensures |hand.cards| > 2 ==> m != Some(Double)
    ensures !hand.isDoubled ==>
      var t := TableMove(hand.handValue, hand.handType, dealerHand.UpCardValue(), table);
      m == if t == Some(Double) && |hand.cards| > 2 then Some(Hit) else t
  {
    if hand.isDoubled then Some(Stand)
    else
      var nextMove := DetermineMove(Str(hand.handValue), hand.handType, hand.HasAce(), dealerHand.UpCardValue(), table);
      if nextMove == Some(Double) && |hand.cards| > 2 then Some(Hit) else nextMove
  }

  /** `getPlayerNextMove` as written. In a static method `this` is the class,
      whose only static members are `getDealerNextMove` and
      `getPlayerNextMove`; `determineMove` and the handlers are instance
      methods. So `this.determineMove(...)` throws a TypeError for every
      hand that is not doubled. A call that does not throw agrees with
      `GetPlayerNextMove`, the behaviour the tests call for. */
  function GetPlayerNextMoveAsWritten(hand: Hand, dealerHand: Hand, table: Table): (r: Result<Option<Move>>)
    reads hand, dealerHand
    ensures hand.isDoubled <==> r.Ok?
    ensures !hand.isDoubled ==> r == Err(NotAFunction)
    ensures r.Ok? ==> r.value == GetPlayerNextMove(hand, dealerHand, table) == Some(Stand)
  {
    if hand.isDoubled then Ok(Some(Stand)) else Err(NotAFunction)
  }

  /** Whether some hand is still at 21 or under (`filter(...).length > 0`). */
  function AnyLive(hands: seq<Hand>): (b: bool)
    reads hands
    ensures b <==> exists i :: 0 <= i < |hands| && hands[i].handValue <= 21
  {
    if |hands| == 0 then false
    else AnyLive(hands[..|hands| - 1]) || hands[|hands| - 1].handValue <= 21
  }

  /** Undefined when every player hand is over 21 (or there are none);
      otherwise Hit below 17 or on a soft 17 when the rule says so, else Stand. */
  function GetDealerNextMove(playerHands: seq<Hand>, dealerHand: Hand, hitOnSoft17: bool): (m: Option<Move>)
    reads playerHands, dealerHand
    ensures m == None <==> forall i :: 0 <= i < |playerHands| ==> playerHands[i].handValue > 21
    ensures m != None ==> m == Some(Hit) || m == Some(Stand)
    ensures m == Some(Hit) <==>
      && m != None
      && (dealerHand.handValue < 17 || (hitOnSoft17 && dealerHand.handValue == 17 && dealerHand.isSoft))
  {
    if !AnyLive(playerHands) then None
    else if hitOnSoft17 && dealerHand.handValue == 17 && dealerHand.isSoft then Some(Hit)
    else if dealerHand.handValue < 17 then Some(Hit)
    else Some(Stand)
  }

  /** With the dealer's fields agreeing with its cards, the rule reads on
      the cards: Hit exactly when some player hand is live and the cards
      total under 17, or a soft 17 under the hit-soft-17 rule. */
  lemma DealerRuleOnCards(playerHands: seq<Hand>, dealerHand: Hand, hitOnSoft17: bool)
    requires dealerHand.Derived()
    ensures GetDealerNextMove(playerHands, dealerHand, hitOnSoft17) == Some(Hit) <==>
      && AnyLive(playerHands)
      && (ValueOf(dealerHand.cards) < 17 || (hitOnSoft17 && ValueOf(dealerHand.cards) == 17 && SoftOf(dealerHand.cards)))
  {
  }

  /** The `<`, `>` and `>=` tests coerce, so the soft, hard and 21-or-more
      rules decide the same for a number and for its string. */
  lemma ComparisonsCoerce(n: int, hasAce: bool, upCard: Option<int>, table: Table)
    ensures HandleHard(Num(n), upCard, table) == HandleHard(Str(n), upCard, table)
    ensures HandleSoft(Num(n), upCard, table) == HandleSoft(Str(n), upCard, table)
    ensures forall t :: t != Pair ==>
      DetermineMove(Num(n), t, hasAce, upCard, table) == DetermineMove(Str(n), t, hasAce, upCard, table)
  {
  }

  /** A pair of eights called with the number 16 splits, but through
      `getPlayerNextMove` (the string "16") it reads row 16, which may say
      anything or nothing. */
  lemma StringifiedPairOfEights(upCard: int)
    ensures HandlePair(Num(16), false, Some(upCard), map[]) == Some(Split)
    ensures HandlePair(Str(16), false, Some(upCard), map[]) == None
    ensures HandlePair(Str(16), false, Some(upCard), map[TableKey(Pair, 16, upCard) := Stand]) == Some(Stand)
  {
  }
}
