/** src/components/Shoe.js: numDecks decks dealt from the end of one list,
    shuffled once by Fisher–Yates, with a cut card (`endMarkerIndex`) whose
    passing is latched in `reachedEndMarker`. */
module Shoes {
  import opened Results
  import opened Decks

  /** Cards per deck as Shoe.js counts them for the cut index. */
  const CardsPerDeck: nat := 52

  /** The ratio a Shoe gets when none is passed. */
  const DefaultEndMarkerRatio: real := 0.25

  /** `Math.floor(numDecks * 52 * endMarkerRatio)`. */
  function EndMarkerIndex(numDecks: nat, endMarkerRatio: real): (k: int)
    ensures k as real <= (numDecks * CardsPerDeck) as real * endMarkerRatio < k as real + 1.0
  {
    ((numDecks * CardsPerDeck) as real * endMarkerRatio).Floor
  }

  /** Every value `Math.random` could have returned. */
  predicate RandomInRange(rand: seq<real>) {
    forall k :: 0 <= k < |rand| ==> 0.0 <= rand[k] < 1.0
  }

  /** `Math.floor(r * (i + 1))` for a random r in [0, 1): an index in [0, i]. */
  function Pick(r: real, i: nat): (j: nat)
    requires 0.0 <= r < 1.0
    ensures j <= i
  {
    ScaledBelow(r, (i + 1) as real);
    (r * (i + 1) as real).Floor
  }

  /** r * n lies in [0, n) for r in [0, 1) and n > 0. */
  lemma ScaledBelow(r: real, n: real)
    requires 0.0 <= r < 1.0 && n > 0.0
    ensures 0.0 <= r * n < n
  {
    var d := 1.0 - r;
    assert d > 0.0;
    assert n - r * n == d * n;
    assert d * n > 0.0;
  }

  function Swap<T>(s: seq<T>, i: nat, j: nat): (t: seq<T>)
    requires i < |s| && j < |s|
    ensures |t| == |s|
  {
    s[i := s[j]][j := s[i]]
  }

  lemma SwapIsPermutation<T>(s: seq<T>, i: nat, j: nat)
    requires i < |s| && j < |s|
    ensures multiset(Swap(s, i, j)) == multiset(s)
  {
    var m := multiset(s);
    assert multiset(s[i := s[j]]) == m - multiset{s[i]} + multiset{s[j]};
  }

  /** The shuffle's iterations for positions i, i-1, ..., 1: position k is
      swapped with `Pick(rand[k], k)`. */
  function FisherYatesFrom<T>(s: seq<T>, rand: seq<real>, i: nat): seq<T>
    requires i < |s| <= |rand| && RandomInRange(rand)
    decreases i
  {
    if i == 0 then s
    else FisherYatesFrom(Swap(s, i, Pick(rand[i], i)), rand, i - 1)
  }

  /** `shuffle` on the list s, rand[k] being what `Math.random` returns at the
      iteration for position k (rand[0] is never used). */
  function FisherYates<T>(s: seq<T>, rand: seq<real>): seq<T>
    requires |s| <= |rand| && RandomInRange(rand)
  {
    if |s| == 0 then s else FisherYatesFrom(s, rand, |s| - 1)
  }

  lemma {:induction false} FisherYatesFromIsPermutation<T>(s: seq<T>, rand: seq<real>, i: nat)
    requires i < |s| <= |rand| && RandomInRange(rand)
    ensures |FisherYatesFrom(s, rand, i)| == |s|
    ensures multiset(FisherYatesFrom(s, rand, i)) == multiset(s)
    decreases i
  {
    if i > 0 {
      SwapIsPermutation(s, i, Pick(rand[i], i));
      FisherYatesFromIsPermutation(Swap(s, i, Pick(rand[i], i)), rand, i - 1);
    }
  }

  /** Shuffling keeps the number of cards and each card's multiplicity. */
  lemma FisherYatesIsPermutation<T>(s: seq<T>, rand: seq<real>)
    requires |s| <= |rand| && RandomInRange(rand)
    ensures |FisherYates(s, rand)| == |s|
    ensures multiset(FisherYates(s, rand)) == multiset(s)
  {
    if |s| > 0 {
      FisherYatesFromIsPermutation(s, rand, |s| - 1);
    }
  }

  /** The cards one new Deck contributes to the shoe. */
  function DeckCards(suits: seq<string>, values: seq<string>): (d: seq<Card>)
    ensures |d| == |CrossProduct(suits, values)| == |suits| * |values|
    ensures forall k :: 0 <= k < |d| ==> d[k] == ToCard(CrossProduct(suits, values)[k])
  {
    var deck := CrossProduct(suits, values);
    CrossProductLength(suits, values);
    seq(|deck|, k requires 0 <= k < |deck| => ToCard(deck[k]))
  }

  /** What `initShoe` pushes: n decks, one after the other, before the shuffle. */
  function Unshuffled(n: nat, suits: seq<string>, values: seq<string>): (u: seq<Card>)
    ensures |u| == n * (|suits| * |values|)
  {
    if n == 0 then []
    else
      var k := |suits| * |values|;
      assert n * k == (n - 1) * k + k;
      Unshuffled(n - 1, suits, values) + DeckCards(suits, values)
  }

  class Shoe {
    const numDecks: nat
    const endMarkerIndex: int
    /** The JS list `this.shoe`: its first `len` entries are the cards left,
        the last of them the next one dealt; its length is the shoe's
        size when it was filled. */
    var cards: array<Card>
    var len: nat
    var reachedEndMarker: bool

    /** The cut flag is latched exactly when some card has been drawn and at
        most `endMarkerIndex` cards remain. */
    ghost predicate Valid()
      reads this
    {
      && len <= cards.Length
      && (reachedEndMarker <==> len < cards.Length && len <= endMarkerIndex)
    }

    /** The shoe lost its last k cards and nothing else, as k draws leave
        it; the array of cards itself is the same. */
    twostate predicate Drew(k: nat)
      reads this
    {
      && cards == old(cards)
      && old(len) >= k && len == old(len) - k
      && reachedEndMarker == (old(reachedEndMarker) || (k > 0 && len <= endMarkerIndex))
    }

    ghost function Remaining(): seq<Card>
      reads this, cards
      requires Valid()
    {
      cards[..len]
    }

    constructor (numDecks: nat, endMarkerRatio: real, suits: seq<string>, values: seq<string>, rand: seq<real>)
      requires |rand| >= numDecks * (|suits| * |values|) && RandomInRange(rand)
      ensures Valid() && fresh(cards)
      ensures this.numDecks == numDecks
      ensures endMarkerIndex == EndMarkerIndex(numDecks, endMarkerRatio)
      ensures !reachedEndMarker
      ensures len == cards.Length == numDecks * (|suits| * |values|)
      ensures Remaining() == FisherYates(Unshuffled(numDecks, suits, values), rand)
    {
      this.numDecks := numDecks;
      endMarkerIndex := EndMarkerIndex(numDecks, endMarkerRatio);
      cards := new Card[0];
      len := 0;
      reachedEndMarker := false;
      new;
      InitShoe(suits, values, rand);
    }

    /** `initShoe`, run by the constructor on the empty shoe: push numDecks
        fresh decks, then shuffle. */
    method InitShoe(suits: seq<string>, values: seq<string>, rand: seq<real>)
      requires Valid() && cards.Length == 0
      requires |rand| >= numDecks * (|suits| * |values|) && RandomInRange(rand)
      modifies this
      ensures Valid() && fresh(cards)
      ensures reachedEndMarker == old(reachedEndMarker)
      ensures len == cards.Length == numDecks * (|suits| * |values|)
      ensures Remaining() == FisherYates(Unshuffled(numDecks, suits, values), rand)
    {
      var pile: seq<Card> := [];
      for i := 0 to numDecks
        invariant pile == Unshuffled(i, suits, values)
        modifies {}
      {
        var deck := new Deck(suits, values);
        var dealt := seq(|deck.cards|, k requires 0 <= k < |deck.cards| reads deck => ToCard(deck.cards[k]));
        assert dealt == DeckCards(suits, values);
        pile := pile + dealt;
      }
      cards := new Card[|pile|](k requires 0 <= k < |pile| => pile[k]);
      len := |pile|;
      assert Remaining() == pile;
      Shuffle(rand);
    }

    /** Fisher–Yates in place over the cards left. */
    method Shuffle(rand: seq<real>)
      requires Valid() && |rand| >= len && RandomInRange(rand)
      modifies cards
      ensures Valid()
      ensures Remaining() == FisherYates(old(Remaining()), rand)
    {
      if len == 0 {
        return;
      }
      ghost var target := FisherYates(cards[..len], rand);
      var i := len - 1;
      while i > 0
        invariant 0 <= i < len
        invariant FisherYatesFrom(cards[..len], rand, i) == target
      {
        var j := Pick(rand[i], i);
        ghost var before := cards[..len];
        var t := cards[i];
        cards[i] := cards[j];
        cards[j] := t;
        assert cards[..len] == Swap(before, i, j);
        i := i - 1;
      }
    }

    /** Deal the last card; an empty shoe throws and is left as it was. */
    method Draw() returns (r: Result<Card>)
      requires Valid()
      modifies this
      ensures Valid() && cards == old(cards)
      ensures old(len) == 0 ==> r == Err(EmptyShoe) && len == 0
      ensures old(len) > 0 ==> && r == Ok(old(Remaining())[old(len) - 1])
                               && len == old(len) - 1
                               && Remaining() == old(Remaining())[..len]
      ensures reachedEndMarker == (old(reachedEndMarker) || (old(len) > 0 && len <= endMarkerIndex))
    {
      if len == 0 {
        return Err(EmptyShoe);
      }
      var drawn := cards[len - 1];
      len := len - 1;
      if len <= endMarkerIndex {
        reachedEndMarker := true;
      }
      return Ok(drawn);
    }

    /** `remainingDecks`, exactly (without `toFixed(2)`). */
    function RemainingDecks(): (d: real)
      reads this
      ensures d >= 0.0 && (d == 0.0 <==> len == 0)
    {
      len as real / CardsPerDeck as real
    }
  }
}
