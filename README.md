# Blackjack round engine in Dafny

A model of the round engine of a JavaScript blackjack simulator with Hi-Lo
card counting. It covers the following parts:

- **Decks** (`decks.dfy`, src/components/Deck.js): a deck is the suit × value
  cross product. Each card carries the Hi-Lo weight list that `assignValues`
  picks.
- **Shoes** (`shoes.dfy`, src/components/Shoe.js): a shoe is `numDecks` decks
  in one array, shuffled in place by Fisher–Yates. Cards are dealt from the
  end. The shoe has a cut index (`endMarkerIndex`), and a latched
  `reachedEndMarker` flag records when it has been passed.
- **Hands** (`hands.dfy`, src/components/Hand.js): a hand holds its cards and
  the fields `updateHand` derives from them: the total with Ace reduction,
  softness, and the hand type. A hand also has a doubled mark.
- **Strategy** (`strategy.dfy`, src/strategy/Strategy.js): the dealer's fixed
  rule, and the player's move read from a basic-strategy table. The table is
  a parameter.
- **Betting** (`betting.dfy`, src/strategy/BetStrategy.js): bet sizing by a
  fraction of Kelly, rounded down to whole base bets and capped.
- **Actors** (`actors.dfy`, src/actors/Player.js and src/actors/Dealer.js):
  - The player has hands, one bet per hand, and a bankroll. Every debit is
    checked before anything changes.
  - Double down and split change the hand list and the bet list in step.
  - The dealer has one hand.
- **Games** (`game.dfy`, src/game/Game.js): one round, step by step:
  1. the four-card deal;
  2. the player's turn;
  3. the dealer's turn;
  4. the verdict lines;
  5. the reset, which replaces the shoe once its end marker has been
     reached.

  The running count is recomputed from the cards held.

The mutable objects (Deck, Shoe, Hand, Player, Dealer, Game) are classes, and
their methods are proved against specification functions. The shoe's cards
are an `array` that `Shuffle` permutes in place and `Draw` shortens. The move
and bet rules are pure functions.

JavaScript exceptions become `Result` values. The state a throw leaves behind
is stated as the source leaves it. For example, a split whose second draw
fails has already debited the bankroll and taken a card from the shoe.

## Design decisions

- **Random numbers.** `Math.random` is a sequence `rand` of reals in [0, 1),
  passed in by the caller. At step i the shuffle swaps position i with
  `floor(rand[i] * (i + 1))`.
- **Configuration.** `SUITS` and `VALUES` come from conf.js, which is not
  part of this model. They are parameters, and so is `KELLY_MULTIPLIER`.
- **The strategy table.** basicStrategy.js is not part of this model. The
  table is a finite map from (hand type, total, dealer up card) to a move.
- **Strategy helpers called as static.** `determineMove`, `handlePair`,
  `handleSoft` and `handleHard` are declared without `static`
  (src/strategy/Strategy.js:58,76,93,105). The static `getPlayerNextMove`
  nevertheless calls `this.determineMove` (src/strategy/Strategy.js:37). As
  written, that call has no method to reach (see Findings). The model calls
  the helpers as static functions, as the tests do.
- **Stringified totals.** `getPlayerNextMove` passes `String(handValue)`.
  This is modelled with `Total = Num | Str`:
  - the `<`, `>` and `>=` tests coerce a stringified total back to a number;
  - the `===` tests in `handlePair` never match a stringified total.
- **Cards.** Cards are `(suit, value, countValue: int)`, the shape Hand.js
  declares. The shoe turns each deck card into one of these with the scalar
  Hi-Lo weight (see Findings).
- **Hand validity.** A hand's `Valid()` is the shape the game relies on:
  - a doubled hand holds two or three cards;
  - a pair holds two cards.

  That the derived fields agree with the cards is `Hand.Derived()`, and
  `AllDerived` for a list of hands. `UpdateHand` establishes it, `AddCard`
  keeps or establishes it, and the constructors and `createSplitHand`
  establish it.

  At game level, `Game.Valid` includes it for the dealer's hand, so the
  dealer's rule reads on the dealer's cards. For the player's hands, every
  game step keeps `AllDerived(player.hands)` when it held before. The game's
  constructor, `ResetGame` and `Play` establish it. Verdicts are therefore
  also stated on the totals of the cards.

## Model

| member | source | states |
|---|---|---|
| Decks.AssignValues | src/components/Deck.js:14-32 | An Ace gets [-1, 1]. "2".."6" get [1]. "7".."9" get [0]. Every other face gets [-1]. |
| Decks.HiLoWeight | src/components/Deck.js:14-32 | The scalar Hi-Lo weight is +1 exactly for "2".."6", 0 exactly for "7".."9", and -1 exactly for every other face. It is the first entry of the list `assignValues` returns. |
| Decks.AceWeightIsNotScalar | src/components/Deck.js:16-17 | The Ace's list [-1, 1] is not the one-entry weight [-1]. Every face except the Ace gets a one-entry list. |
| Decks.ToCard | src/components/Deck.js:8 | A shoe card keeps the deck card's suit and face. Its scalar weight is the first entry of the deck card's list. |
| Decks.SuitRowAt | src/components/Deck.js:7-9 | The inner loop pushes one card per value, in order, each carrying `assignValues(value)`. |
| Decks.CrossProductLength | src/components/Deck.js:6-10 | The two loops push exactly \|suits\| × \|values\| cards. |
| Decks.CrossProductAt | src/components/Deck.js:6-9 | Cards are suit-major. Index s·\|values\|+v holds suit s with value v and that value's weight list. |
| Decks.Deck.constructor | src/components/Deck.js:4-12 | The nested loops build exactly the cross product. The bare `assignValues()` call changes nothing. |
| Shoes.EndMarkerIndex | src/components/Shoe.js:16 | The cut index is the floor of numDecks·52·ratio. |
| Shoes.Pick | src/components/Shoe.js:36 | `floor(r·(i+1))` for r in [0, 1) is an index in [0, i]. |
| Shoes.SwapIsPermutation | src/components/Shoe.js:37 | The destructuring swap keeps the multiset of cards. |
| Shoes.FisherYatesFromIsPermutation | src/components/Shoe.js:34-39 | The iterations from position i down to 1 keep the length and the multiset of cards. |
| Shoes.FisherYatesIsPermutation | src/components/Shoe.js:34-39 | The whole shuffle is a permutation. |
| Shoes.DeckCards | src/components/Shoe.js:27-28 | One new deck adds \|suits\|·\|values\| cards. Each is the deck card at that index, carrying its scalar weight. |
| Shoes.Unshuffled | src/components/Shoe.js:26-29 | numDecks pushed decks hold numDecks·\|suits\|·\|values\| cards. |
| Shoes.Shoe.constructor | src/components/Shoe.js:13-19 | A new shoe keeps numDecks and has the floor cut index. The flag is not set. The shoe holds numDecks full decks, and the remaining cards are the Fisher–Yates shuffle of the unshuffled decks. The cut flag is set exactly when a card has been drawn and at most `endMarkerIndex` cards remain. |
| Shoes.Shoe.InitShoe | src/components/Shoe.js:25-32 | The shoe is filled with numDecks decks in order and then shuffled. |
| Shoes.Shoe.Shuffle | src/components/Shoe.js:34-39 | The in-place loop leaves exactly the functional Fisher–Yates result. By FisherYatesIsPermutation, that result is a permutation. |
| Shoes.Shoe.Draw | src/components/Shoe.js:41-49 | An empty shoe throws and is left unchanged. Otherwise the draw returns the last card, shortens the shoe by one and keeps the rest as it was. The flag becomes set when at most `endMarkerIndex` cards remain, and it is never cleared. |
| Shoes.Shoe.RemainingDecks | src/components/Shoe.js:21-23 | The number of decks left is never negative. It is zero exactly when the shoe is empty. |
| Hands.CardValue | src/components/Hand.js:112-116 | An Ace is worth 11. K, Q, J and T are worth 10. A decimal numeral is worth its number. |
| Hands.ReduceCharacterised | src/components/Hand.js:86-89 | Ace reduction subtracts 10 per Ace reduced and reduces only while the total is over 21. A total over 21 has every Ace at 1. An Ace left at 11 means a total of at most 21. Each reduction was needed. |
| Hands.HandValueFacts | src/components/Hand.js:76-92 | The hand value is at most the all-Aces-high total. Over 21 it equals that total minus 10 per Ace. A soft hand has an Ace and is not over 21. |
| Hands.TwoCardTwentyOne | src/components/Hand.js:38-40 | With faces worth at most 11, two cards total 21, as `isBlackJack` asks, exactly when one card is worth 11 and the other 10. |
| Hands.ExampleHands | src/components/Hand.js:76-104 | A+6 is soft 17, and adding a 9 makes hard 16. A+9+9 is hard 19. 8+8 is a pair. A+K is 21. |
| Hands.CountSumAppend | src/components/Hand.js:31-33 | The count of cards joined together is the sum of their counts. |
| Hands.CountSumBounded | src/components/Hand.js:31-33 | With every weight in [-1, 1], the count of n cards lies in [-n, n]. |
| Hands.AceCounted | src/components/Hand.js:68-70 | A hand that contains an Ace has a positive Ace count. |
| Hands.Hand.constructor | src/components/Hand.js:6-17 | A new hand is empty, with value 0 and type hard. It is not doubled and not soft. |
| Hands.Hand.UpCardValue | src/components/Hand.js:23-25 | The up card's value is that of the first card. `None`, which models the NaN that `getCardValue` gives for `+undefined`, comes back exactly when the hand is empty. |
| Hands.Hand.RunningCount | src/components/Hand.js:31-33 | An empty hand counts 0. With every weight in [-1, 1], the count lies between minus and plus the number of cards. |
| Hands.Hand.IsBlackJack | src/components/Hand.js:38-40 | Only two cards can be a blackjack. On a hand that agrees with its cards, it is exactly two cards totalling 21, that is, one card worth 11 and one worth 10. |
| Hands.Hand.HasAce | src/components/Hand.js:68-70 | True exactly when some card is an Ace; then the Ace count is positive, and a soft hand that agrees with its cards always has one. |
| Hands.Hand.AddCard | src/components/Hand.js:47-51 | A doubled hand of three or more cards is unchanged. Any other hand gets exactly the one card appended, and its derived fields are recomputed. |
| Hands.Hand.DoubleDown | src/components/Hand.js:57-62 | A two-card hand is marked doubled and gets exactly the drawn card, or stays at two cards if the draw throws. Any other hand and the shoe are unchanged. |
| Hands.Hand.UpdateHand | src/components/Hand.js:76-104 | The for-loop and the while-loop leave the value, the softness and the type equal to the specification functions of the cards. |
| Strategy.Lookup | src/strategy/Strategy.js:96 | A table read finds a move exactly when the up card is a number and the key is present. A missing entry is undefined. |
| Strategy.HandleHard | src/strategy/Strategy.js:105-111 | Below 9 the move is Hit. Above 16 it is Stand. From 9 to 16 it is the hard row of the table. |
| Strategy.HandleSoft | src/strategy/Strategy.js:93-97 | Above 19 the move is Stand. Otherwise it is the soft row of the table. |
| Strategy.HandlePair | src/strategy/Strategy.js:76-85 | For a number: 4, 6 and 14 use row 4; 16, or 20 with an Ace, splits; any other 20 stands; the rest read their own row. A stringified total always reads its own row. |
| Strategy.DetermineMove | src/strategy/Strategy.js:58-67 | At 21 or more the move is Stand, whatever the type. Below 21 it dispatches on pair, soft or hard. |
| Strategy.GetPlayerNextMove | src/strategy/Strategy.js:34-47 | A doubled hand stands. Otherwise the move is the table's move for the stringified total. A Double becomes Hit once the hand has more than two cards, so Double never comes back for such a hand. |
| Strategy.GetPlayerNextMoveAsWritten | src/strategy/Strategy.js:34-47 | As written, only a doubled hand gets a move (Stand, the same as `GetPlayerNextMove`). Every other hand throws, because `this.determineMove` does not exist on the class. |
| Strategy.TableMove | src/strategy/Strategy.js:58-111 | The move `getPlayerNextMove` reads: `determineMove` on the stringified total. For a hand that is not a pair, it is the move for the number as well. |
| Strategy.AnyLive | src/strategy/Strategy.js:17-19 | The filter finds a hand exactly when some hand is at 21 or under. |
| Strategy.GetDealerNextMove | src/strategy/Strategy.js:16-25 | The move is undefined exactly when no player hand is at 21 or under, including when there are no hands. Otherwise it is Hit exactly when the value is below 17, or it is a soft 17 and the rule hits soft 17. Anything else is Stand. |
| Strategy.DealerRuleOnCards | src/strategy/Strategy.js:16-25 | On a dealer hand that agrees with its cards, the rule says Hit exactly when some player hand is live and the cards total under 17, or are a soft 17 and the rule hits soft 17. |
| Strategy.ComparisonsCoerce | src/strategy/Strategy.js:58-111 | The hard, soft and 21-or-more rules decide the same for a number and for its string. |
| Strategy.StringifiedPairOfEights | src/strategy/Strategy.js:76-85 | The number 16 as a pair splits. The string "16" reads row 16 instead. |
| Betting.BetStrategy.GetBaseBet | src/strategy/BetStrategy.js:39-41 | The base bet is one six-hundredth of the bankroll, and positive below a positive bankroll. |
| Betting.BetStrategy.GetEdge | src/strategy/BetStrategy.js:48-50 | The edge is half a percent per true count above 1, and non-negative exactly from a true count of 1. |
| Betting.BetStrategy.GetOptimalPercent | src/strategy/BetStrategy.js:57-59 | The Kelly share of the edge is non-negative when the edge and the multiplier are. |
| Betting.BetStrategy.GetOptimalBet | src/strategy/BetStrategy.js:68-72 | Below a true count of 2 the optimal bet is the base bet. Otherwise it is bankroll/100 × edge × multiplier. |
| Betting.BetStrategy.GetBet | src/strategy/BetStrategy.js:24-31 | The bet is the smaller of the rounded bet and maxBet. When the rounded bet fits under maxBet, the bet is that rounded bet: a whole number of base bets, at most the optimal bet and less than one base bet below it. Otherwise the bet is maxBet. Below a true count of 2 it is exactly the base bet when that fits under maxBet. A zero bankroll gives no number. |
| Betting.RoundedDown | src/strategy/BetStrategy.js:26-28 | floor(x/b)·b is the largest multiple of b not above x. |
| Betting.WorkedBets | src/strategy/BetStrategy.js:39-50 | On 12000 the base bet is 20. The edges are 0, 0.5 and 1.5 at true counts 1, 2 and 4. A true count of 1 bets 20. |
| Actors.HandsCountIsCardCount | src/actors/Player.js:22-24 | The player's count, summed hand by hand, is the count of all the player's cards. |
| Actors.CreateSplitHand | src/actors/Player.js:119-124 | The new hand holds exactly the kept card and the shoe's last card, and the shoe loses that card. An empty shoe throws. |
| Actors.AllDerivedSplit | src/actors/Player.js:89-96 | After a split, a list of hands that agreed with their cards still does when both new hands do. |
| Actors.Player.constructor | src/actors/Player.js:12-16 | A new player has one empty hand, bets [0] and the given bankroll. |
| Actors.Player.RunningCount | src/actors/Player.js:22-24 | The player's count is the Hi-Lo sum of every card in every hand. |
| Actors.Player.GetHand | src/actors/Player.js:31-33 | The hand at `index`, which is in the list and is no other index's hand. |
| Actors.Player.DeductBankroll | src/actors/Player.js:104-109 | An amount above the bankroll throws with no change. Otherwise the bankroll drops by exactly the amount. |
| Actors.Player.PlaceBet | src/actors/Player.js:40-43 | The bet is refused with no change if it is unaffordable. Otherwise it is debited and recorded at its index. |
| Actors.Player.AddWinnings | src/actors/Player.js:49-51 | The bankroll rises by exactly the amount, and the hands and bets are untouched. |
| Actors.Player.ResetHand | src/actors/Player.js:56-59 | The player has exactly one new empty hand and bets [0]. The bankroll is unchanged. |
| Actors.Player.DoubleDown | src/actors/Player.js:66-73 | Stated as `DoubleDownEffect`. An unaffordable double throws before any change. Otherwise the bet is debited and doubled even when the hand's own double is a no-op. A two-card hand is marked doubled and gets exactly the drawn card. A failed draw leaves the debit and the mark, with the bet not doubled. A hand that agreed with its cards still does. |
| Actors.Player.SplitHand | src/actors/Player.js:80-97 | Stated as `SplitHandEffect`. Nothing happens unless the hand is a pair and there are fewer than 4 hands. An unaffordable split throws with no change. A split debits the bet once, replaces the pair with (card 1 + draw), appends (card 2 + draw), and appends the same bet. Both new hands agree with their cards. Hands and bets stay equal in number, at most 4. |
| Actors.Player.SplitPair | src/actors/Player.js:85-96 | The split after its guard, with the same outcomes: refused, the shoe runs out after the debit, or done. |
| Actors.Player.DealSplit | src/actors/Player.js:89-96 | After the debit, both new hands are dealt from the shoe's last two cards and installed. An exhausted shoe throws before any installation. |
| Actors.Player.InstallSplit | src/actors/Player.js:94-96 | The first new hand takes the pair's place. The second hand and the bet are appended. |
| Actors.Dealer.constructor | src/actors/Dealer.js:4-6 | A new dealer holds a new empty hand: value 0, type hard, not doubled and not soft. |
| Actors.Dealer.ResetHand | src/actors/Dealer.js:8-10 | The hand is replaced by a fresh, distinct, empty hand, so the observable state is the same on every call. |
| Games.DrawOrderAt | src/game/Game.js:85-87 | The i-th card the dealer draws is the i-th from the end of the shoe. |
| Games.DrawInto | src/game/Game.js:17-20 | `hand.addCard(shoe.draw())`: the draw throws on an empty shoe before the hand is touched. Otherwise the shoe's last card goes through `addCard`. A hand whose value, softness and type agreed with its cards still agrees. |
| Games.DrawIntoAt | src/game/Game.js:47 | Hit on hand `index` of a list of distinct hands: as `DrawInto`, and every other hand is untouched. A list whose every hand agreed with its cards still does. |
| Games.Judge | src/game/Game.js:97-105 | A busted player loses even if the dealer busts. Otherwise a busted dealer loses. Otherwise the higher total wins, and equal totals draw. Each verdict holds exactly in its case. |
| Games.PlayerAheadExactly | src/game/Game.js:97-105 | The player comes out ahead exactly when not busted and the dealer busted or stayed below. |
| Games.Message | src/game/Game.js:97-105 | Each verdict's line contains no line break. |
| Games.Messages | src/game/Game.js:97-105 | The set of the five verdict lines. |
| Games.JoinLines | src/game/Game.js:107 | The joined string starts with the first line. With break-free lines it holds exactly one line break fewer than there are lines. |
| Games.SplitJoin | src/game/Game.js:107 | Joining break-free lines with "\n" and splitting again gives back the lines. |
| Games.Verdicts | src/game/Game.js:93-106 | There is one line per player hand, in order: the message for that hand's verdict against the dealer's value. |
| Games.Game.constructor | src/game/Game.js:8-14 | A new game has a new shuffled shoe, a player with one empty hand, a dealer with an empty hand, the given rule and a count of 0. Every hand's value, softness and type agree with its cards. |
| Games.Game.UpdateRunningCount | src/game/Game.js:110-113 | The count equals the weight sum of all cards held now, player hands then dealer. It is recomputed, not accumulated. The hands and their agreement with their cards are untouched. |
| Games.Game.HitPlayer | src/game/Game.js:47 | Hit: the shoe's last card goes through `addCard` on hand `index`, and an empty shoe throws with the hand unchanged. If every player hand agreed with its cards, every one still does. |
| Games.Game.HitDealer | src/game/Game.js:86 | The dealer's hand gets the shoe's last card, and its value, softness and type stay those of its cards. The player's hands and their agreement are untouched. |
| Games.Game.DealToPlayer | src/game/Game.js:17-18 | The first two draws go through `addCard` on player hand 0. If every player hand agreed with its cards, every one still does. |
| Games.Game.DealToDealer | src/game/Game.js:19-20 | The next two draws go to the dealer, whose value, softness and type stay those of its cards. Player hand 0 and the player hands' agreement are untouched. |
| Games.Game.DealFour | src/game/Game.js:17-20 | Exactly 4 cards are taken: the first two into player hand 0 and the next two to the dealer. Every hand that agreed with its cards still does, and the dealer's always does. |
| Games.Game.DealInitialCards | src/game/Game.js:16-26 | The four-card deal as above, with draws 1 and 2 to the player and 3 and 4 to the dealer, then the recomputed count. An exhausted shoe throws before the count. Agreement of the hands with their cards is kept. |
| Games.Game.DoublePlayer | src/game/Game.js:48 | Every outcome of `Player.DoubleDown`. If every player hand agreed with its cards, every one still does. |
| Games.Game.SplitPlayer | src/game/Game.js:49 | Every outcome of `Player.SplitHand`. If every player hand agreed with its cards, every one still does, including the two new hands. |
| Games.Game.HitCounted | src/game/Game.js:47-54 | Stated as `HitEffect`: an empty shoe throws with the hand unchanged; otherwise the shoe's last card goes through `addCard` on hand `index`, and the hand list, bets and bankroll stay. Then the recomputed count. A throw leaves the count. Agreement with the cards is kept. |
| Games.Game.DoubleCounted | src/game/Game.js:48-54 | Double (`DoubleDownEffect`), then the recomputed count. A throw leaves the count. Agreement with the cards is kept. |
| Games.Game.SplitCounted | src/game/Game.js:49-54 | Split (`SplitHandEffect`), then the recomputed count. A throw leaves the count. Agreement with the cards is kept. |
| Games.Game.ApplyPlayerNextMove | src/game/Game.js:45-55 | Hit (`HitEffect`): the drawn card goes through `addCard` on hand `index`, and the bets and bankroll stay. An empty shoe throws and changes nothing. Double has every outcome of `Player.DoubleDown`: the debit, the doubled bet, the doubled hand and its drawn card. Split has every outcome of `Player.SplitHand`: the debit, the appended bet, the pair replaced by its first card plus a draw, and the appended two-card hand. Any other move changes nothing. Then the count is recomputed, after Stand too. A move that throws leaves the count unchanged. The other hands keep their place, and hands a split appends are new. If every player hand agreed with its cards, every one still does. |
| Games.Game.PlayStep | src/game/Game.js:65-67 | One move applied to hand `index`, then the strategy's next move for the hand now at that index. Other hands keep their place. After a normal move the count covers every card held. Agreement with the cards is kept. |
| Games.Game.PlayHand | src/game/Game.js:59-73 | On a normal exit the hand's next move is Stand or undefined. A doubled hand stands. Other hands keep their place. A count that covered every card held still does. If every player hand agreed with its cards, every one still does. |
| Games.Game.PlayNext | src/game/Game.js:58-74 | One pass of `forEach`: hand `i` is played, the hands before it stay finished and no hand present is lost. Count and agreement are kept as in `PlayHand`. |
| Games.Game.PlayerTurn | src/game/Game.js:57-75 | Only the hands present at the start are played, and each ends on Stand or undefined. Hands a split appends are new. A count that covered every card held still does. If every player hand agreed with its cards, every one still does. |
| Games.Game.DealerHitOnce | src/game/Game.js:86 | One hit of the dealer's loop: the shoe's last card extends the dealer's cards in draw order, or an empty shoe throws. The player's hands and their agreement are untouched. |
| Games.Game.DealerDraws | src/game/Game.js:78-87 | The dealer's hand gets the shoe's cards in draw order. On a normal exit the dealer's next move is not Hit. The loop ends because every hit takes a card. The player's hands and their agreement are untouched. |
| Games.Game.DealerTurn | src/game/Game.js:77-89 | Stated as `DealerDrawsEffect`: the shoe's cards in draw order are appended to the dealer's hand, and an exhausted shoe throws. On a normal exit the dealer does not hit; while some player hand is live, that means the dealer's cards total 17 or more and are not a soft 17 under the hit-soft-17 rule. Then the recomputed count. Only the dealer's hand, the shoe and the count change, and the player hands' agreement is untouched. |
| Games.VerdictsOfCards | src/game/Game.js:93-106 | When every hand agrees with its cards, verdict line k is the message for the total of hand k's cards judged against the total of the dealer's cards. |
| Games.Game.EvaluateWinner | src/game/Game.js:91-108 | Split at its line breaks, the result is exactly the verdict line of each player hand in order. When the hands agree with their cards, line k judges the total of hand k's cards against the total of the dealer's cards. There are no payouts. |
| Games.Game.ResetGame | src/game/Game.js:115-122 | Both actors get new empty hands that agree with their (empty) cards. The shoe is replaced exactly when its end marker was reached, by a new shuffled shoe with the same decks and the default ratio 0.25. |
| Games.Game.DealAndPlayerTurn | src/game/Game.js:29-32 | The deal, then the player's turn. A shoe of fewer than four cards throws. Otherwise the dealer holds the third and fourth cards drawn, every hand present at the start ends on Stand or undefined, and the running count covers every card held. No hand is lost. If every player hand agreed with its cards, every one still does. |
| Games.Game.RoundVerdicts | src/game/Game.js:28-40 | After the deal and both turns, the result splits into exactly the verdict lines of the hands in play. If the player's hands agreed with their cards at the start, line k judges the total of hand k's cards against the total of the dealer's cards. |
| Games.Game.Play | src/game/Game.js:28-43 | A completed round yields at least one verdict line per hand at the start, as the string `play` logs. Every line is one of the five messages. The actors are reset afterwards, with hands that agree with their cards. |

## Left out

- Console output, and the UI files (src/index.js, main.js, src/main.js), are not modelled.
- The legacy copies src/Deck.js, src/Shoe.js and src/Game.js are not part of this model.
- The test-only methods are not modelled: payouts, `playRound`, `evaluateHandResult` and `resetRound`.
- `Math.random` is a caller-supplied sequence of reals in [0, 1). No distribution is modelled.
- Shoes.Shoe.RemainingDecks: the `toFixed(2)` rounding is not modelled. The ratio is exact.
- Betting is exact `real` arithmetic. IEEE-754 rounding is not modelled.
- Betting.BetStrategy: the constructor's default `maxBet` of 10000 is not a constant of the model. `maxBet` is a field every caller supplies.
- Betting.BetStrategy.GetBet: a zero bankroll, where JavaScript computes NaN, is `None`.
- Hands.CardValue: a face that spells no number, which JavaScript turns into NaN, counts 0.
- Strategy.GetPlayerNextMove: an empty dealer hand, whose up card JavaScript turns into NaN, finds no table entry.
- Games.Game.PlayHand: the source can loop forever, for example when the table keeps saying Split once 4 hands exist. The model takes a fuel bound and returns an error when it runs out, so non-termination is not modelled.
- Games.Game.PlayerTurn: the fuel bound applies to each hand.
- Games.Game.RoundVerdicts and Games.Game.Play: `play` writes the verdicts and the running count to the console and returns nothing. The model returns the verdict string it would log and leaves out the count lines.
- Games.Game.RoundVerdicts and Games.Game.Play do not restate the per-step shoe and hand contents, which the steps' own contracts give.
- Games.Game.Play: the player's bankroll can change during a round, since a double or a split debits it.
- Games.Game.DealAndPlayerTurn: the player's first hand after the deal is not restated once the player's turn has changed it, and the shoe is stated only through the dealer's two cards.
- Games.Game.DealInitialCards: after a throw midway, only the shoe's emptiness and the unchanged count are stated, not which hand got the cards already drawn.
- Games.Game.PlayHand and Games.Game.PlayerTurn: that split-appended hands hold two undoubled cards is stated for each move on Games.Game.ApplyPlayerNextMove, not carried through the turn.
- Games.Game.constructor: JavaScript passes no bankroll to `new Player()` (undefined). The model takes it as a parameter. The strategy table, the suits and the values are parameters too.
- Hands.Hand.RunningCount: the deck's list-valued weights, which JavaScript would concatenate as strings, are not reproduced. Hands hold scalar weights (see Findings).
- Games.Game.RoundVerdicts: the verdicts are stated on the totals of the cards only when the player's hands agreed with their cards at the start of the round. `Game.Valid` carries that agreement for the dealer's hand only; for the player's hands each step keeps it as an implication. The constructor, ResetGame and Play establish it, so every round that starts from them meets the condition.
- Games.Game.DealerDraws: the stop is stated on the dealer's fields, which `Game.Valid` keeps equal to those of its cards. DealerTurn states it on the dealer's cards.
- Actors.Player.GetHand: an index out of range, where JavaScript returns undefined, is excluded by the precondition. Every caller passes an index in range.

## Findings

| source | as written | input that shows it | evidently intended | confidence | as-written member | corrected member |
|---|---|---|---|---|---|---|
| src/components/Deck.js:14-32 | `assignValues` returns a list per face, and two entries for the Ace | face "A" gives [-1, 1], and face "5" gives [1] rather than 1 | a scalar Hi-Lo weight per face, A → -1, as the deck's test expects | not executed | Decks.AceWeightIsNotScalar | Decks.HiLoWeight |
| src/strategy/Strategy.js:37 | the static `getPlayerNextMove` calls `this.determineMove`, but `determineMove` is an instance method, and `this` in a static method is the class | any hand that is not doubled: the call throws a TypeError | call the helpers statically (`Strategy.determineMove`), as the strategy's tests do | not executed | Strategy.GetPlayerNextMoveAsWritten | Strategy.GetPlayerNextMove |
