/** src/components/Deck.js: one ordered deck, the suit × value cross product,
    each card carrying the Hi-Lo weight that `assignValues` chooses. */
module Decks {

  /** A card as Deck.js builds it: `countValue` is the LIST `assignValues` returns. */
  datatype DeckCard = DeckCard(suit: string, value: string, countValue: seq<int>)

  /** A card as Hand.js declares it (a scalar `countValue`); the shoe deals these. */
  datatype Card = Card(suit: string, value: string, countValue: int)

  /** Faces weighted +1 in the Hi-Lo count. */
  const LowFaces: set<string> := {"2", "3", "4", "5", "6"}

  /** Faces weighted 0 in the Hi-Lo count. */
  const NeutralFaces: set<string> := {"7", "8", "9"}

  /** `assignValues` as written: a list, and two entries for the Ace. */
  function AssignValues(value: string): (w: seq<int>)
    ensures value == "A" ==> w == [-1, 1]
    ensures value in LowFaces ==> w == [1]
    ensures value in NeutralFaces ==> w == [0]
    ensures value != "A" && value !in LowFaces && value !in NeutralFaces ==> w == [-1]
  {
    if value == "A" then [-1, 1]
    else if value in LowFaces then [1]
    else if value in NeutralFaces then [0]
    else [-1]
  }

  /** The scalar Hi-Lo weight the deck's test expects for every face; it is the
      first entry of the list `assignValues` returns. */
  function HiLoWeight(value: string): (w: int)
    ensures w == 1 <==> value in LowFaces
    ensures w == 0 <==> value in NeutralFaces
    ensures w == -1 <==> value !in LowFaces && value !in NeutralFaces
    ensures w == AssignValues(value)[0]
  {
    if value in LowFaces then 1
    else if value in NeutralFaces then 0
    else -1
  }

  /** The list written for the Ace is not the scalar weight -1 expected of it. */
  lemma AceWeightIsNotScalar()
    ensures AssignValues("A") == [-1, 1]
    ensures AssignValues("A") != [HiLoWeight("A")]
    ensures forall v: string :: |AssignValues(v)| == 1 <==> v != "A"
  {
  }

  /** The card the shoe holds for a deck card: the same suit and face with the
      scalar weight in place of the list. */
  function ToCard(d: DeckCard): (c: Card)
    ensures c.suit == d.suit && c.value == d.value
    ensures d.countValue == AssignValues(d.value) ==> c.countValue == d.countValue[0]
  {
    Card(d.suit, d.value, HiLoWeight(d.value))
  }

  function MakeCard(suit: string, value: string): DeckCard {
    DeckCard(suit, value, AssignValues(value))
  }

  /** The cards the inner loop pushes for one suit, in value order. */
  function SuitRow(suit: string, values: seq<string>): seq<DeckCard>
  {
    if |values| == 0 then []
    else SuitRow(suit, values[..|values| - 1]) + [MakeCard(suit, values[|values| - 1])]
  }

  /** The cards both loops push, suit-major. */
  function CrossProduct(suits: seq<string>, values: seq<string>): seq<DeckCard>
  {
    if |suits| == 0 then []
    else CrossProduct(suits[..|suits| - 1], values) + SuitRow(suits[|suits| - 1], values)
  }

  lemma {:induction false} SuitRowAt(suit: string, values: seq<string>)
    ensures |SuitRow(suit, values)| == |values|
    ensures forall v :: 0 <= v < |values| ==> SuitRow(suit, values)[v] == MakeCard(suit, values[v])
  {
    if |values| > 0 {
      SuitRowAt(suit, values[..|values| - 1]);
    }
  }

  lemma {:induction false} RowMajorBound(s: nat, n: nat, w: nat, v: nat)
    requires s < n && v < w
    ensures s * w + v < n * w
  {
    if s + 1 < n {
      RowMajorBound(s, n - 1, w, v);
      assert n * w == (n - 1) * w + w;
    } else {
      assert n * w == s * w + w;
    }
  }

  lemma {:induction false} CrossProductLength(suits: seq<string>, values: seq<string>)
    ensures |CrossProduct(suits, values)| == |suits| * |values|
  {
    if |suits| > 0 {
      var n := |suits| - 1;
      CrossProductLength(suits[..n], values);
      SuitRowAt(suits[n], values);
      assert |suits| * |values| == n * |values| + |values|;
    }
  }

  /** The deck holds |suits| × |values| cards, and index s*|values|+v holds
      suit s with value v and that value's weight list. */
  lemma {:induction false} CrossProductAt(suits: seq<string>, values: seq<string>, s: nat, v: nat)
    requires s < |suits| && v < |values|
    ensures |CrossProduct(suits, values)| == |suits| * |values|
    ensures s * |values| + v < |suits| * |values|
    ensures CrossProduct(suits, values)[s * |values| + v] == MakeCard(suits[s], values[v])
  {
    var n := |suits| - 1;
    var w := |values|;
    var front := CrossProduct(suits[..n], values);
    var row := SuitRow(suits[n], values);
    CrossProductLength(suits, values);
    CrossProductLength(suits[..n], values);
    SuitRowAt(suits[n], values);
    RowMajorBound(s, |suits|, w, v);
    assert CrossProduct(suits, values) == front + row;
    if s < n {
      CrossProductAt(suits[..n], values, s, v);
      assert suits[..n][s] == suits[s];
    } else {
      assert s * w + v - n * w == v;
    }
  }

  class Deck {
    var cards: seq<DeckCard>

    /** The nested suit/value loops of Deck's constructor; the bare
        `assignValues()` call after them discards its result. */
    constructor (suits: seq<string>, values: seq<string>)
      ensures cards == CrossProduct(suits, values)
    {
      cards := [];
      new;
      for i := 0 to |suits|
        invariant cards == CrossProduct(suits[..i], values)
      {
        for j := 0 to |values|
          invariant cards == CrossProduct(suits[..i], values) + SuitRow(suits[i], values[..j])
        {
          assert values[..j + 1][..j] == values[..j];
          cards := cards + [MakeCard(suits[i], values[j])];
        }
        assert suits[..i + 1][..i] == suits[..i];
        assert values[..|values|] == values;
      }
      assert suits[..|suits|] == suits;
    }
  }
}
