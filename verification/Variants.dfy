// src/variants.js: which cards a clue touches and how many copies each identity has.
// The regular expressions over suit names are booleans of the suit here.
module Variants {
  import opened Cards

  datatype Suit = Suit(
    name: string,
    whitish: bool,
    rainbowish: bool,
    brownish: bool,
    pinkish: bool,
    dark: bool,
    prism: bool)
  {
    predicate NoColour() { whitish || rainbowish || prism }
  }

  datatype Variant = Variant(
    suits: seq<Suit>,
    specialRank: Option<nat>,
    specialRankAllClueColors: bool,
    specialRankNoClueColors: bool,
    specialRankAllClueRanks: bool,
    specialRankNoClueRanks: bool,
    specialRankDeceptive: bool,
    chimneys: bool,
    funnels: bool,
    criticalRank: Option<nat>)

  datatype Clue = Colour(value: nat) | Rank(value: nat)

  function ColourableSuits(suits: seq<Suit>): seq<Suit> {
    if suits == [] then []
    else (if suits[0].NoColour() then [] else [suits[0]]) + ColourableSuits(suits[1..])
  }

  predicate CardTouched(card: Id, variant: Variant, clue: Clue)
    requires card.suit < |variant.suits|
  {
    var suit := variant.suits[card.suit];
    var colourable := ColourableSuits(variant.suits);
    var special := variant.specialRank == Some(card.rank);
    match clue
    case Colour(value) =>
      if suit.whitish then false
      else if suit.rainbowish then true
      else if special && variant.specialRankAllClueColors then true
      else if special && variant.specialRankNoClueColors then false
      else if suit.prism then |colourable| > 0 && card.rank >= 1 && (card.rank - 1) % |colourable| == value
      else value < |colourable| && suit.name == colourable[value].name
    case Rank(value) =>
      if suit.brownish then false
      else if special && variant.specialRankAllClueRanks then card.rank != value
      else if special && variant.specialRankNoClueRanks then false
      else if special && variant.specialRankDeceptive then
        card.suit % 4 + (if card.rank == 1 then 2 else 1) == value && card.rank != value
      else if suit.pinkish then true
      else if variant.chimneys then card.rank >= value
      else if variant.funnels then card.rank <= value
      else card.rank == value
  }

  /** The identities that a clue would touch. */
  function FindPossibilities(clue: Clue, variant: Variant): (r: set<Id>)
    ensures forall id :: id in r <==> IsId(id, |variant.suits|) && CardTouched(id, variant, clue)
  {
    set s, r | 0 <= s < |variant.suits| && 1 <= r <= MAX_RANK && CardTouched(Id(s, r), variant, clue) :: Id(s, r)
  }

  // ----- What clues mean -----

  /** No special suits or ranks, and every suit has its own name. */
  predicate Plain(variant: Variant) {
    && (forall s | s in variant.suits :: !s.NoColour() && !s.brownish && !s.pinkish)
    && (forall i, j | 0 <= i < j < |variant.suits| :: variant.suits[i].name != variant.suits[j].name)
    && variant.specialRank.None? && !variant.chimneys && !variant.funnels
  }

  lemma {:induction false} AllColourable(suits: seq<Suit>)
    requires forall s | s in suits :: !s.NoColour()
    ensures ColourableSuits(suits) == suits
  {
    if suits != [] {
      assert suits[0] in suits && forall s | s in suits[1..] :: s in suits;
      AllColourable(suits[1..]);
    }
  }

  /** In a plain variant a card is touched by the rank clue of its rank and the colour clue of its suit, and by no other. */
  lemma PlainClues(variant: Variant, id: Id)
    requires Plain(variant) && IsId(id, |variant.suits|)
    ensures forall value :: CardTouched(id, variant, Rank(value)) <==> value == id.rank
    ensures forall value :: CardTouched(id, variant, Colour(value)) <==> value == id.suit
  {
    AllColourable(variant.suits);
    assert variant.suits[id.suit] in variant.suits;
  }

  /** So a rank clue leaves one identity of every suit, and a colour clue the identities of one suit. */
  lemma PlainPossibilities(variant: Variant, value: nat)
    requires Plain(variant)
    ensures forall id | IsId(id, |variant.suits|) :: id in FindPossibilities(Rank(value), variant) <==> id.rank == value
    ensures forall id | IsId(id, |variant.suits|) :: id in FindPossibilities(Colour(value), variant) <==> id.suit == value
  {
    forall id | IsId(id, |variant.suits|)
      ensures CardTouched(id, variant, Rank(value)) <==> id.rank == value
      ensures CardTouched(id, variant, Colour(value)) <==> id.suit == value
    {
      PlainClues(variant, id);
    }
  }

  /** The suits that change rank clues: brown is touched by none, pink by all, away from the special rank. */
  lemma SuitsAndRanks(variant: Variant, id: Id, value: nat)
    requires IsId(id, |variant.suits|)
    ensures variant.suits[id.suit].brownish ==> !CardTouched(id, variant, Rank(value))
    ensures variant.suits[id.suit].pinkish && !variant.suits[id.suit].brownish && variant.specialRank != Some(id.rank) ==>
              CardTouched(id, variant, Rank(value))
  {
  }

  /** The suits that change colour clues: white is touched by none, rainbow by all, whatever the rank. */
  lemma SuitsAndColours(variant: Variant, id: Id, value: nat)
    requires IsId(id, |variant.suits|)
    ensures variant.suits[id.suit].whitish ==> !CardTouched(id, variant, Colour(value))
    ensures variant.suits[id.suit].rainbowish && !variant.suits[id.suit].whitish ==> CardTouched(id, variant, Colour(value))
  {
  }

  /** The first of the rules for the special rank that is in force. */
  datatype RankRule = AllRanks | NoRanks | Deceptive | Unchanged

  function RankRuleOf(variant: Variant): RankRule {
    if variant.specialRankAllClueRanks then AllRanks
    else if variant.specialRankNoClueRanks then NoRanks
    else if variant.specialRankDeceptive then Deceptive
    else Unchanged
  }

  /** Cards of the special rank, brown ones apart: all rank clues but their own touch them, or none does, or at most one
      that is not their own and that four suits in a row tell apart. */
  lemma SpecialRankAndRanks(variant: Variant, id: Id)
    requires IsId(id, |variant.suits|) && variant.specialRank == Some(id.rank) && !variant.suits[id.suit].brownish
    ensures RankRuleOf(variant) == AllRanks ==> forall value :: CardTouched(id, variant, Rank(value)) <==> value != id.rank
    ensures RankRuleOf(variant) == NoRanks ==> forall value :: !CardTouched(id, variant, Rank(value))
    ensures RankRuleOf(variant) == Deceptive ==> !CardTouched(id, variant, Rank(id.rank))
    ensures RankRuleOf(variant) == Deceptive ==>
              forall a, b | CardTouched(id, variant, Rank(a)) && CardTouched(id, variant, Rank(b)) :: a == b
    ensures RankRuleOf(variant) == Deceptive && id.rank in {1, 5} ==> exists value :: 1 <= value <= MAX_RANK && CardTouched(id, variant, Rank(value))
  {
    if RankRuleOf(variant) == Deceptive && id.rank in {1, 5} {
      assert CardTouched(id, variant, Rank(id.suit % 4 + (if id.rank == 1 then 2 else 1)));
    }
  }

  /** The deceptive clues of two suits differ exactly if the suits are not a multiple of four apart. */
  lemma DeceptiveTells(variant: Variant, id: Id, other: nat, value: nat)
    requires IsId(id, |variant.suits|) && other < |variant.suits| && variant.specialRank == Some(id.rank)
    requires RankRuleOf(variant) == Deceptive && !variant.suits[id.suit].brownish && !variant.suits[other].brownish
    requires CardTouched(id, variant, Rank(value))
    ensures CardTouched(Id(other, id.rank), variant, Rank(value)) <==> other % 4 == id.suit % 4
  {
  }

  /** Cards of the special rank and colours: all touch, or none, unless the suit is white or rainbow. */
  lemma SpecialRankAndColours(variant: Variant, id: Id, value: nat)
    requires IsId(id, |variant.suits|) && variant.specialRank == Some(id.rank)
    requires !variant.suits[id.suit].whitish && !variant.suits[id.suit].rainbowish
    ensures variant.specialRankAllClueColors ==> CardTouched(id, variant, Colour(value))
    ensures !variant.specialRankAllClueColors && variant.specialRankNoClueColors ==> !CardTouched(id, variant, Colour(value))
  {
  }

  /** The special rank, if any, does not change rank clues on this card, nor does its suit. */
  predicate OrdinaryRank(variant: Variant, id: Id)
    requires id.suit < |variant.suits|
  {
    && !variant.suits[id.suit].brownish && !variant.suits[id.suit].pinkish
    && (variant.specialRank == Some(id.rank) ==> RankRuleOf(variant) == Unchanged)
  }

  /** Ordinary cards: chimneys also touch all higher ranks, funnels all lower ones, and otherwise a clue touches its rank. */
  lemma OrdinaryRanks(variant: Variant, id: Id, value: nat)
    requires IsId(id, |variant.suits|) && OrdinaryRank(variant, id)
    ensures variant.chimneys ==> (CardTouched(id, variant, Rank(value)) <==> value <= id.rank)
    ensures !variant.chimneys && variant.funnels ==> (CardTouched(id, variant, Rank(value)) <==> id.rank <= value)
    ensures !variant.chimneys && !variant.funnels ==> (CardTouched(id, variant, Rank(value)) <==> id.rank == value)
  {
  }

  lemma {:induction false} ColourableMember(suits: seq<Suit>, i: nat) returns (value: nat)
    requires i < |suits| && !suits[i].NoColour()
    ensures value < |ColourableSuits(suits)| && ColourableSuits(suits)[value] == suits[i]
  {
    if i == 0 {
      value := 0;
    } else {
      var rest := ColourableMember(suits[1..], i - 1);
      value := if suits[0].NoColour() then rest else rest + 1;
    }
  }

  lemma {:induction false} ColourableNames(suits: seq<Suit>)
    requires forall i, j | 0 <= i < j < |suits| :: suits[i].name != suits[j].name
    ensures forall s | s in ColourableSuits(suits) :: s in suits
    ensures forall i, j | 0 <= i < j < |ColourableSuits(suits)| :: ColourableSuits(suits)[i].name != ColourableSuits(suits)[j].name
  {
    if suits != [] {
      assert forall j | 0 < j < |suits| :: suits[j] == suits[1..][j - 1];
      assert forall s | s in suits[1..] :: s in suits && s.name != suits[0].name;
      ColourableNames(suits[1..]);
    }
  }

  /** Away from special rules exactly one colour clue touches a card, also one of a prism suit. */
  lemma OneColour(variant: Variant, id: Id)
    requires IsId(id, |variant.suits|) && !variant.suits[id.suit].whitish && !variant.suits[id.suit].rainbowish
    requires variant.specialRank == Some(id.rank) ==> !variant.specialRankAllClueColors && !variant.specialRankNoClueColors
    requires forall i, j | 0 <= i < j < |variant.suits| :: variant.suits[i].name != variant.suits[j].name
    requires ColourableSuits(variant.suits) != []
    ensures exists value: nat :: value < |ColourableSuits(variant.suits)| && CardTouched(id, variant, Colour(value))
                                 && forall other: nat | CardTouched(id, variant, Colour(other)) :: other == value
  {
    var colourable := ColourableSuits(variant.suits);
    if variant.suits[id.suit].prism {
      var value := (id.rank - 1) % |colourable|;
      assert CardTouched(id, variant, Colour(value));
    } else {
      var value := ColourableMember(variant.suits, id.suit);
      ColourableNames(variant.suits);
      assert CardTouched(id, variant, Colour(value));
      forall other: nat | CardTouched(id, variant, Colour(other))
        ensures other == value
      {
        assert colourable[other].name == colourable[value].name;
      }
    }
  }

  // ----- Copies -----

  function CardCount(variant: Variant, id: Id): nat
    requires IsId(id, |variant.suits|)
  {
    if variant.suits[id.suit].dark then 1
    else if variant.criticalRank == Some(id.rank) then 1
    else [3, 2, 2, 2, 1][id.rank - 1]
  }

  /** One copy of every five, of every card of a dark suit and of the critical rank; otherwise three of the ones and two of
      the others: ten cards in an ordinary suit, five in a dark one. */
  lemma CopiesBySuit(variant: Variant, suit: nat)
    requires suit < |variant.suits|
    ensures forall r | 1 <= r <= MAX_RANK ::
              CardCount(variant, Id(suit, r)) == 1 <==> r == 5 || variant.suits[suit].dark || variant.criticalRank == Some(r)
    ensures forall r | 1 <= r <= MAX_RANK && CardCount(variant, Id(suit, r)) != 1 :: CardCount(variant, Id(suit, r)) == if r == 1 then 3 else 2
    ensures variant.criticalRank.None? ==>
              CardCount(variant, Id(suit, 1)) + CardCount(variant, Id(suit, 2)) + CardCount(variant, Id(suit, 3))
              + CardCount(variant, Id(suit, 4)) + CardCount(variant, Id(suit, 5)) == if variant.suits[suit].dark then 5 else 10
  {
  }

  /** The `_cardCount` table that the constructor of State fills. */
  function CountTable(variant: Variant): (t: seq<seq<nat>>)
    ensures |t| == |variant.suits|
    ensures forall s, r | 0 <= s < |variant.suits| && 1 <= r <= MAX_RANK ::
              |t[s]| == MAX_RANK && t[s][r - 1] == CardCount(variant, Id(s, r)) && t[s][r - 1] >= 1
  {
    seq(|variant.suits|, s requires 0 <= s < |variant.suits| =>
      seq(MAX_RANK, r requires 0 <= r < MAX_RANK => CardCount(variant, Id(s, r + 1))))
  }
}
