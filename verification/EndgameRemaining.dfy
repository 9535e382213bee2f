// `find_remaining_identities` of src/conventions/shared/endgame.js:
// which identities may still be drawn, or be on our own unknown cards.
module EndgameRemaining {
  import opened Cards
  import opened GameState
  import opened Beliefs
  import opened Table
  import opened TableLaws
  import opened EndgameSteps
  import opened EndgameGame
  import opened EndgameArrangements

  type Deck = seq<Option<Id>>

  // ----- What we take the cards to be -----

  /** `identity({ infer: true })` */
  function InferredIdentity(c: Card): (r: Option<Id>)
    ensures c.Identity(false).Some? ==> r == c.Identity(false)
    ensures c.Identity(false).None? && c.infoLock.None? ==> (r.Some? <==> exists id :: c.inferred == {id} && r == Some(id))
  {
    if c.Identity(false).Some? then c.Identity(false)
    else if c.infoLock.Some? && |c.infoLock.value| == 1 then Some(TheOne(c.infoLock.value))
    else if |c.inferred| == 1 then Some(TheOne(c.inferred))
    else None
  }

  function Identities(thoughts: seq<Card>): (d: Deck)
    ensures |d| == |thoughts|
  {
    seq(|thoughts|, o requires 0 <= o < |thoughts| => thoughts[o].Identity(false))
  }

  /** Identities that are only inferred. */
  function Guesses(thoughts: seq<Card>): (d: Deck)
    ensures |d| == |thoughts|
  {
    seq(|thoughts|, o requires 0 <= o < |thoughts| =>
      if thoughts[o].Identity(false).Some? then None else InferredIdentity(thoughts[o]))
  }

  /** More of our cards are inferred to be id than there are copies left. */
  predicate TooMany(st: State, thoughts: seq<Card>, own: seq<Order>, id: Id)
    requires st.WellFormed() && st.ValidId(id)
  {
    CopiesIn(Identities(thoughts), st.hands, id) + Copies(Guesses(thoughts), own, id) + st.BaseCount(id) > st.CardCount(id)
  }

  /** What the solver takes a card to be: what it is known to be, or on our own hand also what it is inferred to be,
      unless more cards are inferred to be that than there can be. */
  function Assumed(st: State, thoughts: seq<Card>, our: nat): (d: Deck)
    requires st.WellFormed() && our < |st.hands|
    ensures |d| == |thoughts|
  {
    seq(|thoughts|, o requires 0 <= o < |thoughts| =>
      if thoughts[o].Identity(false).Some? then thoughts[o].Identity(false)
      else if o in st.hands[our] && Guesses(thoughts)[o].Some? && st.ValidId(Guesses(thoughts)[o].value)
              && !TooMany(st, thoughts, st.hands[our], Guesses(thoughts)[o].value)
      then Guesses(thoughts)[o]
      else None)
  }

  /** Our beliefs cover the cards in hands, with identities of the variant. */
  ghost predicate Readable(st: State, thoughts: seq<Card>, our: nat) {
    && st.WellFormed() && DistinctHands(st.hands) && our < |st.hands|
    && (forall h, o | h in st.hands && o in h :: o < |thoughts| && o < |st.deck|)
    && (forall o | 0 <= o < |thoughts| && InferredIdentity(thoughts[o]).Some? :: st.ValidId(InferredIdentity(thoughts[o]).value))
  }

  // ----- Decks that agree on a hand -----

  predicate SameOn(a: Deck, b: Deck, hand: seq<Order>) {
    forall o | o in hand :: (o < |a| <==> o < |b|) && (o < |a| ==> a[o] == b[o])
  }

  lemma {:induction false} CopiesSame(a: Deck, b: Deck, hand: seq<Order>, id: Id)
    requires SameOn(a, b, hand)
    ensures Copies(a, hand, id) == Copies(b, hand, id)
  {
    if hand != [] {
      assert hand[0] in hand && forall o | o in hand[1..] :: o in hand;
      CopiesSame(a, b, hand[1..], id);
    }
  }

  lemma {:induction false} CopiesInSame(a: Deck, b: Deck, hands: seq<seq<Order>>, id: Id)
    requires forall h | h in hands :: SameOn(a, b, h)
    ensures CopiesIn(a, hands, id) == CopiesIn(b, hands, id)
  {
    if hands != [] {
      assert hands[0] in hands && forall h | h in hands[1..] :: h in hands;
      CopiesSame(a, b, hands[0], id);
      CopiesInSame(a, b, hands[1..], id);
    }
  }

  /** The other hands hold none of our cards. */
  lemma OthersApart(st: State, our: nat, p: nat, o: Order)
    requires DistinctHands(st.hands) && our < |st.hands| && p < |st.hands| && p != our && o in st.hands[p]
    ensures o !in st.hands[our]
  {
  }

  function Others(st: State, our: nat): seq<seq<Order>>
    requires our < |st.hands|
  {
    st.hands[our := []]
  }

  lemma SplitHands(deck: Deck, st: State, our: nat, id: Id)
    requires our < |st.hands|
    ensures CopiesIn(deck, st.hands, id) == CopiesIn(deck, Others(st, our), id) + Copies(deck, st.hands[our], id)
  {
    CopiesInUpdate(deck, st.hands, our, [], id);
  }

  lemma OthersSame(st: State, our: nat, a: Deck, b: Deck, id: Id)
    requires DistinctHands(st.hands) && our < |st.hands|
    requires forall p | 0 <= p < |st.hands| && p != our :: SameOn(a, b, st.hands[p])
    ensures CopiesIn(a, Others(st, our), id) == CopiesIn(b, Others(st, our), id)
  {
    forall h | h in Others(st, our)
      ensures SameOn(a, b, h)
    {
      var p :| 0 <= p < |Others(st, our)| && Others(st, our)[p] == h;
      if p != our { assert h == st.hands[p]; }
    }
    CopiesInSame(a, b, Others(st, our), id);
  }

  /** On our own hand the guesses that are not too many are added to what is known. */
  lemma {:induction false} OwnAssumed(st: State, thoughts: seq<Card>, our: nat, hand: seq<Order>, id: Id)
    requires Readable(st, thoughts, our) && st.ValidId(id) && forall o | o in hand :: o in st.hands[our]
    ensures Copies(Assumed(st, thoughts, our), hand, id) == Copies(Identities(thoughts), hand, id)
              + if TooMany(st, thoughts, st.hands[our], id) then 0 else Copies(Guesses(thoughts), hand, id)
  {
    if hand != [] {
      assert hand[0] in hand && forall o | o in hand[1..] :: o in hand;
      OwnAssumed(st, thoughts, our, hand[1..], id);
      hide TooMany;
      assert st.hands[our] in st.hands;
      assert Guesses(thoughts)[hand[0]].Some? ==> InferredIdentity(thoughts[hand[0]]).Some?;
    }
  }

  lemma AssumedSplits(st: State, thoughts: seq<Card>, our: nat, id: Id)
    requires Readable(st, thoughts, our) && st.ValidId(id)
    ensures CopiesIn(Assumed(st, thoughts, our), st.hands, id) == CopiesIn(Identities(thoughts), st.hands, id)
              + if TooMany(st, thoughts, st.hands[our], id) then 0 else Copies(Guesses(thoughts), st.hands[our], id)
  {
    var known, all := Identities(thoughts), Assumed(st, thoughts, our);
    SplitHands(known, st, our, id);
    SplitHands(all, st, our, id);
    forall p | 0 <= p < |st.hands| && p != our
      ensures SameOn(known, all, st.hands[p])
    {
      forall o | o in st.hands[p]
        ensures o !in st.hands[our] && o < |known|
      {
        OthersApart(st, our, p, o);
        assert st.hands[p] in st.hands;
      }
    }
    OthersSame(st, our, known, all, id);
    OwnAssumed(st, thoughts, our, st.hands[our], id);
  }

  // ----- Counting over all identities -----

  function Filled(deck: Deck, hand: seq<Order>): nat {
    if hand == [] then 0 else (if hand[0] < |deck| && deck[hand[0]].Some? then 1 else 0) + Filled(deck, hand[1..])
  }

  function FilledIn(deck: Deck, hands: seq<seq<Order>>): nat {
    if hands == [] then 0 else Filled(deck, hands[0]) + FilledIn(deck, hands[1..])
  }

  function CardsIn(hands: seq<seq<Order>>): nat {
    if hands == [] then 0 else |hands[0]| + CardsIn(hands[1..])
  }

  /** Copies of the first n identities in a hand. */
  ghost function HandSpread(deck: Deck, hand: seq<Order>, n: nat): nat {
    if n == 0 then 0 else HandSpread(deck, hand, n - 1) + Copies(deck, hand, IdAt(n - 1))
  }

  ghost function Spread(deck: Deck, hands: seq<seq<Order>>, n: nat): nat {
    if n == 0 then 0 else Spread(deck, hands, n - 1) + CopiesIn(deck, hands, IdAt(n - 1))
  }

  ghost predicate Ranked(deck: Deck, n: nat) {
    forall o | 0 <= o < |deck| && deck[o].Some? :: 1 <= deck[o].value.rank <= MAX_RANK && IndexOfId(deck[o].value) < n
  }

  lemma {:induction false} HandSpreadFirst(deck: Deck, hand: seq<Order>, n: nat)
    requires hand != []
    requires hand[0] < |deck| && deck[hand[0]].Some? ==> 1 <= deck[hand[0]].value.rank <= MAX_RANK
    ensures HandSpread(deck, hand, n) == HandSpread(deck, hand[1..], n)
              + if hand[0] < |deck| && deck[hand[0]].Some? && IndexOfId(deck[hand[0]].value) < n then 1 else 0
  {
    if n > 0 {
      HandSpreadFirst(deck, hand, n - 1);
      if hand[0] < |deck| && deck[hand[0]].Some? { IndexRound(deck[hand[0]].value, n - 1); }
    }
  }

  lemma {:induction false} HandSpreadNone(deck: Deck, n: nat)
    ensures HandSpread(deck, [], n) == 0
  {
    if n > 0 { HandSpreadNone(deck, n - 1); }
  }

  /** Every filled entry is a copy of exactly one identity. */
  lemma {:induction false} HandSpreadFilled(deck: Deck, hand: seq<Order>, n: nat)
    requires Ranked(deck, n)
    ensures HandSpread(deck, hand, n) == Filled(deck, hand)
  {
    if hand == [] {
      HandSpreadNone(deck, n);
    } else {
      HandSpreadFirst(deck, hand, n);
      HandSpreadFilled(deck, hand[1..], n);
    }
  }

  lemma {:induction false} SpreadFirst(deck: Deck, hands: seq<seq<Order>>, n: nat)
    requires hands != []
    ensures Spread(deck, hands, n) == HandSpread(deck, hands[0], n) + Spread(deck, hands[1..], n)
  {
    if n > 0 { SpreadFirst(deck, hands, n - 1); }
  }

  lemma {:induction false} SpreadNone(deck: Deck, n: nat)
    ensures Spread(deck, [], n) == 0
  {
    if n > 0 { SpreadNone(deck, n - 1); }
  }

  lemma {:induction false} SpreadFilled(deck: Deck, hands: seq<seq<Order>>, n: nat)
    requires Ranked(deck, n)
    ensures Spread(deck, hands, n) == FilledIn(deck, hands)
  {
    if hands == [] {
      SpreadNone(deck, n);
    } else {
      SpreadFirst(deck, hands, n);
      HandSpreadFilled(deck, hands[0], n);
      SpreadFilled(deck, hands[1..], n);
    }
  }

  // ----- Copies are the cards of a hand -----

  ghost predicate Distinct(hand: seq<Order>) {
    forall i, j | 0 <= i < j < |hand| :: hand[i] != hand[j]
  }

  ghost function Bearing(deck: Deck, hand: seq<Order>, id: Id): set<Order> {
    set o | o in hand && o < |deck| && deck[o] == Some(id)
  }

  ghost function BearingIn(deck: Deck, hands: seq<seq<Order>>, id: Id): set<Order> {
    set h, o | h in hands && o in h && o < |deck| && deck[o] == Some(id) :: o
  }

  lemma {:induction false} CopiesAreCards(deck: Deck, hand: seq<Order>, id: Id)
    requires Distinct(hand)
    ensures Copies(deck, hand, id) == |Bearing(deck, hand, id)|
  {
    if hand != [] {
      CopiesAreCards(deck, hand[1..], id);
      var o := hand[0];
      assert hand == [o] + hand[1..] && o !in hand[1..];
      if o < |deck| && deck[o] == Some(id) {
        assert Bearing(deck, hand, id) == Bearing(deck, hand[1..], id) + {o};
      } else {
        assert Bearing(deck, hand, id) == Bearing(deck, hand[1..], id);
      }
    }
  }

  lemma {:induction false} CopiesInAreCards(deck: Deck, hands: seq<seq<Order>>, id: Id)
    requires DistinctHands(hands)
    ensures CopiesIn(deck, hands, id) == |BearingIn(deck, hands, id)|
  {
    if hands == [] {
      assert BearingIn(deck, hands, id) == {};
    } else {
      var rest := hands[1..];
      assert DistinctHands(rest);
      CopiesInAreCards(deck, rest, id);
      CopiesAreCards(deck, hands[0], id);
      var a, b := Bearing(deck, hands[0], id), BearingIn(deck, rest, id);
      assert hands == [hands[0]] + rest;
      assert BearingIn(deck, hands, id) == a + b;
      assert a !! b by { FirstApart(deck, hands, id); }
      assert |a + b| == |a| + |b|;
    }
  }

  lemma FirstApart(deck: Deck, hands: seq<seq<Order>>, id: Id)
    requires DistinctHands(hands) && hands != []
    ensures Bearing(deck, hands[0], id) !! BearingIn(deck, hands[1..], id)
  {
  }

  // ----- The deal behind it -----

  ghost function Truth(w: Deal): Deck {
    seq(|w|, o requires 0 <= o < |w| => Some(w[o]))
  }

  /** The cards that have not been drawn, as if they were a hand. */
  ghost function Pile(w: Deal, st: State): seq<Order>
    requires |st.deck| <= |w|
  {
    seq(|w| - |st.deck|, i requires 0 <= i < |w| - |st.deck| => |st.deck| + i)
  }

  lemma TruthHeld(w: Deal, st: State, id: Id)
    requires DistinctHands(st.hands)
    ensures CopiesIn(Truth(w), st.hands, id) == |Held(w, st, id)|
  {
    CopiesInAreCards(Truth(w), st.hands, id);
    forall o: Order
      ensures o in BearingIn(Truth(w), st.hands, id) <==> o in Held(w, st, id)
    {
      HandOrdersMember(st, o);
    }
    assert BearingIn(Truth(w), st.hands, id) == Held(w, st, id);
  }

  lemma TruthUndrawn(w: Deal, st: State, id: Id)
    requires |st.deck| <= |w|
    ensures Copies(Truth(w), Pile(w, st), id) == |Undrawn(w, st, id)|
  {
    var pile := Pile(w, st);
    CopiesAreCards(Truth(w), pile, id);
    forall o: Order
      ensures o in Bearing(Truth(w), pile, id) <==> o in Undrawn(w, st, id)
    {
      if |st.deck| <= o < |w| { assert pile[o - |st.deck|] == o; }
    }
    assert Bearing(Truth(w), pile, id) == Undrawn(w, st, id);
  }

  /** Copies of the first n identities that are on no stack. */
  ghost function FreeUpTo(st: State, n: nat): int
    requires st.WellFormed() && n <= st.NumSuits() * MAX_RANK
  {
    if n == 0 then 0 else FreeUpTo(st, n - 1) + st.CardCount(IdAt(n - 1)) - st.BaseCount(IdAt(n - 1))
  }

  lemma {:induction false} FreeAreDealt(w: Deal, st: State, n: nat)
    requires st.WellFormed() && Placed(w, st) && Conserved(w, st) && n <= st.NumSuits() * MAX_RANK
    ensures FreeUpTo(st, n) == Spread(Truth(w), st.hands, n) + HandSpread(Truth(w), Pile(w, st), n)
  {
    if n > 0 {
      FreeAreDealt(w, st, n - 1);
      TruthHeld(w, st, IdAt(n - 1));
      TruthUndrawn(w, st, IdAt(n - 1));
      assert st.ValidId(IdAt(n - 1));
    }
  }

  lemma {:induction false} AllFilled(deck: Deck, hand: seq<Order>)
    requires forall o | o in hand :: o < |deck| && deck[o].Some?
    ensures Filled(deck, hand) == |hand|
  {
    if hand != [] {
      assert hand[0] in hand && forall o | o in hand[1..] :: o in hand;
      AllFilled(deck, hand[1..]);
    }
  }

  lemma {:induction false} AllFilledIn(deck: Deck, hands: seq<seq<Order>>)
    requires forall h, o | h in hands && o in h :: o < |deck| && deck[o].Some?
    ensures FilledIn(deck, hands) == CardsIn(hands)
  {
    if hands != [] {
      assert hands[0] in hands && forall h | h in hands[1..] :: h in hands;
      AllFilled(deck, hands[0]);
      AllFilledIn(deck, hands[1..]);
    }
  }

  /** Every card that is on no stack is in a hand or undrawn. */
  lemma FreeCards(w: Deal, st: State)
    requires st.WellFormed() && Placed(w, st) && Conserved(w, st)
    ensures FreeUpTo(st, st.NumSuits() * MAX_RANK) == CardsIn(st.hands) + st.cardsLeft
  {
    var n := st.NumSuits() * MAX_RANK;
    var truth := Truth(w);
    FreeAreDealt(w, st, n);
    forall o | 0 <= o < |truth|
      ensures 1 <= truth[o].value.rank <= MAX_RANK && IndexOfId(truth[o].value) < n
    {
      assert st.ValidId(w[o]);
    }
    SpreadFilled(truth, st.hands, n);
    HandSpreadFilled(truth, Pile(w, st), n);
    forall h, o | h in st.hands && o in h
      ensures o < |w|
    {
      HandOrdersMember(st, o);
    }
    AllFilledIn(truth, st.hands);
    AllFilled(truth, Pile(w, st));
  }

  // ----- The identities that are left -----

  function Unseen(st: State, known: Deck, id: Id): int
    requires st.WellFormed() && st.ValidId(id)
  {
    st.CardCount(id) - st.BaseCount(id) - CopiesIn(known, st.hands, id)
  }

  /** The entries for the first n identities. */
  function UnseenUpTo(st: State, known: Deck, n: nat): (r: seq<Remaining>)
    requires st.WellFormed() && n <= st.NumSuits() * MAX_RANK
  {
    if n == 0 then [] else UnseenUpTo(st, known, n - 1) + LastEntry(st, known, n)
  }

  /** The entry for identity number n - 1, if copies of it are unseen. */
  function LastEntry(st: State, known: Deck, n: nat): seq<Remaining>
    requires st.WellFormed() && 0 < n <= st.NumSuits() * MAX_RANK
  {
    var id := IdAt(n - 1);
    var missing := Unseen(st, known, id);
    if missing > 0 then [Remaining(id, missing, missing == st.CardCount(id))] else []
  }

  lemma MissingLast(st: State, known: Deck, n: nat, id: Id)
    requires st.WellFormed() && 0 < n <= st.NumSuits() * MAX_RANK && st.ValidId(id)
    ensures Missing(LastEntry(st, known, n), id) ==
              if id == IdAt(n - 1) && Unseen(st, known, IdAt(n - 1)) > 0 then Unseen(st, known, IdAt(n - 1)) else 0
  {
    hide Unseen, State.CardCount, State.BaseCount;
    var last := LastEntry(st, known, n);
    if last != [] { assert Missing(last[1..], id) == 0; }
  }

  function AllUnseen(st: State, known: Deck): seq<Remaining>
    requires st.WellFormed()
  {
    UnseenUpTo(st, known, st.NumSuits() * MAX_RANK)
  }

  /** Every entry has unseen copies, and says how many. */
  lemma {:induction false} UnseenSound(st: State, known: Deck, n: nat)
    requires st.WellFormed() && n <= st.NumSuits() * MAX_RANK
    ensures forall r | r in UnseenUpTo(st, known, n) :: st.ValidId(r.id) && IndexOfId(r.id) < n && r.missing == Unseen(st, known, r.id) >= 1
  {
    if n > 0 {
      UnseenSound(st, known, n - 1);
      assert IndexOfId(IdAt(n - 1)) == n - 1 && st.ValidId(IdAt(n - 1));
      hide Unseen, State.CardCount;
    }
  }

  lemma LastIs(st: State, known: Deck, n: nat)
    requires st.WellFormed() && 0 < n <= st.NumSuits() * MAX_RANK
    ensures |LastEntry(st, known, n)| <= 1 && forall r | r in LastEntry(st, known, n) :: r.missing >= 1 && IndexOfId(r.id) == n - 1
  {
    IndexRound(Id(0, 1), n - 1);
    hide Unseen, IdAt, State.CardCount;
  }

  lemma OneMoreEntry(front: seq<Remaining>, last: seq<Remaining>, i: int)
    requires RemainingOk(front) && (forall r | r in front :: IndexOfId(r.id) < i)
    requires |last| <= 1 && forall r | r in last :: r.missing >= 1 && IndexOfId(r.id) == i
    ensures RemainingOk(front + last)
  {
    hide IndexOfId;
    assert forall k | 0 <= k < |front| :: front[k] in front;
    assert forall k | 0 <= k < |last| :: last[k] in last;
  }

  lemma {:induction false} UnseenDistinct(st: State, known: Deck, n: nat)
    requires st.WellFormed() && n <= st.NumSuits() * MAX_RANK
    ensures RemainingOk(UnseenUpTo(st, known, n))
  {
    hide Unseen, IdAt, IndexOfId, LastEntry, State.CardCount, State.ValidId;
    if n > 0 {
      UnseenSound(st, known, n - 1);
      UnseenDistinct(st, known, n - 1);
      LastIs(st, known, n);
      hide RemainingOk;
      OneMoreEntry(UnseenUpTo(st, known, n - 1), LastEntry(st, known, n), n - 1);
    }
  }

  /** The list tells, for every identity, how many copies are unseen. */
  lemma {:induction false} UnseenMissing(st: State, known: Deck, n: nat, id: Id)
    requires st.WellFormed() && n <= st.NumSuits() * MAX_RANK && st.ValidId(id)
    ensures Missing(UnseenUpTo(st, known, n), id) == if IndexOfId(id) < n && Unseen(st, known, id) > 0 then Unseen(st, known, id) else 0
  {
    hide Unseen, LastEntry, IdAt, IndexOfId, State.CardCount, State.BaseCount;
    if n > 0 {
      UnseenMissing(st, known, n - 1, id);
      IndexRound(id, n - 1);
      MissingAppend(UnseenUpTo(st, known, n - 1), LastEntry(st, known, n), id);
      MissingLast(st, known, n, id);
      hide Missing;
    } else {
      assert IndexOfId(id) >= 0 by { IndexAtLeast(id); }
    }
  }

  lemma IndexAtLeast(id: Id)
    requires id.rank >= 1
    ensures IndexOfId(id) >= 0
  {
  }

  lemma {:induction false} MissingAppend(a: seq<Remaining>, b: seq<Remaining>, id: Id)
    ensures Missing(a + b, id) == Missing(a, id) + Missing(b, id)
  {
    if a == [] {
      assert a + b == b;
    } else {
      assert (a + b)[1..] == a[1..] + b;
      MissingAppend(a[1..], b, id);
    }
  }

  lemma {:induction false} TotalAppend(a: seq<Remaining>, b: seq<Remaining>)
    ensures Total(a + b) == Total(a) + Total(b)
  {
    if a == [] {
      assert a + b == b;
    } else {
      assert (a + b)[1..] == a[1..] + b;
      TotalAppend(a[1..], b);
    }
  }

  lemma TotalLast(st: State, known: Deck, n: nat)
    requires st.WellFormed() && 0 < n <= st.NumSuits() * MAX_RANK && st.ValidId(IdAt(n - 1)) && Unseen(st, known, IdAt(n - 1)) >= 0
    ensures Total(LastEntry(st, known, n)) == Unseen(st, known, IdAt(n - 1))
  {
    hide Unseen, IdAt, State.CardCount;
    var last := LastEntry(st, known, n);
    if last != [] { assert Total(last[1..]) == 0; }
  }

  lemma {:induction false} UnseenTotal(st: State, known: Deck, n: nat)
    requires st.WellFormed() && n <= st.NumSuits() * MAX_RANK
    requires forall id | st.ValidId(id) :: Unseen(st, known, id) >= 0
    ensures Total(UnseenUpTo(st, known, n)) == FreeUpTo(st, n) - Spread(known, st.hands, n)
  {
    if n > 0 {
      UnseenTotal(st, known, n - 1);
      assert st.ValidId(IdAt(n - 1));
      hide LastEntry, IdAt, IndexOfId, CopiesIn, State.ValidId, State.CardCount, State.BaseCount;
      TotalLast(st, known, n);
      TotalAppend(UnseenUpTo(st, known, n - 1), LastEntry(st, known, n));
      hide Total;
    }
  }

  /** Nobody is taken to hold more copies than there are. */
  lemma UnseenNotNegative(w: Deal, st: State, thoughts: seq<Card>, our: nat, id: Id)
    requires Readable(st, thoughts, our) && Consistent(w, st, thoughts) && st.ValidId(id)
    ensures Unseen(st, Assumed(st, thoughts, our), id) >= 0
  {
    AssumedSplits(st, thoughts, our, id);
    if TooMany(st, thoughts, st.hands[our], id) {
      KnownAreHeld(w, st, thoughts, id);
    }
  }

  lemma KnownAreHeld(w: Deal, st: State, thoughts: seq<Card>, id: Id)
    requires st.WellFormed() && DistinctHands(st.hands) && Consistent(w, st, thoughts)
    ensures CopiesIn(Identities(thoughts), st.hands, id) <= |Held(w, st, id)|
  {
    CopiesInAreCards(Identities(thoughts), st.hands, id);
    forall o | o in BearingIn(Identities(thoughts), st.hands, id)
      ensures o in Held(w, st, id)
    {
      HandOrdersMember(st, o);
      IdentityRight(w[o], st.deck[o], thoughts[o], false);
    }
    SubsetCardinality(BearingIn(Identities(thoughts), st.hands, id), Held(w, st, id));
  }

  function Blanks(deck: Deck, hands: seq<seq<Order>>): int {
    CardsIn(hands) - FilledIn(deck, hands)
  }

  /** The unseen copies are the undrawn cards and the cards in hands that are not taken to be anything. */
  lemma UnseenAreUndrawnOrBlank(w: Deal, st: State, thoughts: seq<Card>, our: nat)
    requires Readable(st, thoughts, our) && Consistent(w, st, thoughts) && Placed(w, st) && Conserved(w, st)
    ensures Total(AllUnseen(st, Assumed(st, thoughts, our))) == st.cardsLeft + Blanks(Assumed(st, thoughts, our), st.hands)
  {
    var known := Assumed(st, thoughts, our);
    var n := st.NumSuits() * MAX_RANK;
    forall id | st.ValidId(id)
      ensures Unseen(st, known, id) >= 0
    {
      UnseenNotNegative(w, st, thoughts, our, id);
    }
    UnseenTotal(st, known, n);
    FreeCards(w, st);
    AssumedRanked(st, thoughts, our);
    SpreadFilled(known, st.hands, n);
  }

  lemma AssumedRanked(st: State, thoughts: seq<Card>, our: nat)
    requires Readable(st, thoughts, our)
    ensures Ranked(Assumed(st, thoughts, our), st.NumSuits() * MAX_RANK)
  {
    var known := Assumed(st, thoughts, our);
    forall o | 0 <= o < |known| && known[o].Some?
      ensures st.ValidId(known[o].value)
    {
      assert InferredIdentity(thoughts[o]) == known[o];
    }
    assert forall id | st.ValidId(id) :: IndexOfId(id) < st.NumSuits() * MAX_RANK;
  }

  // ----- find_remaining_identities -----

  datatype Owned = Owned(order: Order, id: Option<Id>)

  /** `own_ids`, and `infer_ids` with its keys in the order in which they were added. */
  datatype Own = Own(ids: seq<Owned>, keys: seq<Id>, groups: map<Id, seq<Order>>)

  function Count(seen: map<Id, nat>, id: Id): nat {
    if id in seen then seen[id] else 0
  }

  function GroupOf(own: Own, id: Id): seq<Order> {
    if id in own.groups then own.groups[id] else []
  }

  ghost predicate InRange(thoughts: seq<Card>, hand: seq<Order>) {
    forall o | o in hand :: o < |thoughts|
  }

  /** The cards that are not merely inferred are listed with what they are known to be. */
  ghost predicate DirectOk(thoughts: seq<Card>, hand: seq<Order>, ids: seq<Owned>)
    requires InRange(thoughts, hand)
  {
    && (forall x | x in ids :: x.order in hand && Guesses(thoughts)[x.order].None? && x.id == Identities(thoughts)[x.order])
    && (forall o | o in hand && Guesses(thoughts)[o].None? :: Owned(o, Identities(thoughts)[o]) in ids)
    && OrdersDiffer(ids)
  }

  /** The others are grouped by what they are inferred to be. */
  ghost predicate GroupsOk(thoughts: seq<Card>, hand: seq<Order>, own: Own)
    requires InRange(thoughts, hand)
  {
    && (forall o | o in hand && Guesses(thoughts)[o].Some? :: o in GroupOf(own, Guesses(thoughts)[o].value))
    && (forall id, o | o in GroupOf(own, id) :: o in hand && Guesses(thoughts)[o] == Some(id))
  }

  ghost predicate SizesOk(thoughts: seq<Card>, hand: seq<Order>, own: Own) {
    forall id :: |GroupOf(own, id)| == Copies(Guesses(thoughts), hand, id) && Distinct(GroupOf(own, id))
  }

  ghost predicate KeysOk(own: Own) {
    && (forall id :: id in own.keys <==> id in own.groups) && (forall id | id in own.keys :: GroupOf(own, id) != [])
    && (forall i, j | 0 <= i < j < |own.keys| :: own.keys[i] != own.keys[j])
  }

  ghost predicate Sorted(thoughts: seq<Card>, hand: seq<Order>, own: Own) {
    InRange(thoughts, hand) && DirectOk(thoughts, hand, own.ids) && GroupsOk(thoughts, hand, own) && SizesOk(thoughts, hand, own) && KeysOk(own)
  }

  ghost predicate OrdersDiffer(ids: seq<Owned>) {
    forall i, j | 0 <= i < j < |ids| :: ids[i].order != ids[j].order
  }

  lemma CopiesNext(deck: Deck, hand: seq<Order>, o: Order, id: Id)
    ensures Copies(deck, hand + [o], id) == Copies(deck, hand, id) + if o < |deck| && deck[o] == Some(id) then 1 else 0
  {
    CopiesAppend(deck, hand, [o], id);
    assert Copies(deck, [o], id) == (if o < |deck| && deck[o] == Some(id) then 1 else 0) + Copies(deck, [o][1..], id);
  }

  ghost predicate OneMore(thoughts: seq<Card>, hand: seq<Order>, o: Order) {
    o < |thoughts| && forall i ::
      Copies(Guesses(thoughts), hand + [o], i) == Copies(Guesses(thoughts), hand, i) + if Guesses(thoughts)[o] == Some(i) then 1 else 0
  }

  lemma GuessesNext(thoughts: seq<Card>, hand: seq<Order>, o: Order)
    requires o < |thoughts|
    ensures OneMore(thoughts, hand, o)
  {
    forall i
      ensures Copies(Guesses(thoughts), hand + [o], i) == Copies(Guesses(thoughts), hand, i) + if Guesses(thoughts)[o] == Some(i) then 1 else 0
    {
      CopiesNext(Guesses(thoughts), hand, o, i);
    }
  }

  lemma SortedDirect(thoughts: seq<Card>, hand: seq<Order>, o: Order, own: Own, r: Own)
    requires Sorted(thoughts, hand, own) && OneMore(thoughts, hand, o) && o !in hand && Guesses(thoughts)[o].None?
    requires r == own.(ids := own.ids + [Owned(o, Identities(thoughts)[o])])
    ensures Sorted(thoughts, hand + [o], r)
  {
    hide Copies, Guesses, Identities, Distinct;
    assert forall id :: GroupOf(r, id) == GroupOf(own, id);
    assert DirectOk(thoughts, hand + [o], r.ids) by {
      hide GroupsOk, SizesOk, KeysOk, OneMore;
      assert forall x | x in r.ids :: x in own.ids || x == Owned(o, Identities(thoughts)[o]);
      assert Owned(o, Identities(thoughts)[o]) == r.ids[|r.ids| - 1];
      forall i, j | 0 <= i < j < |r.ids|
        ensures r.ids[i].order != r.ids[j].order
      {
        assert r.ids[i] in own.ids;
      }
    }
    hide DirectOk;
  }

  /** o has joined the group of id. */
  ghost predicate GroupJoined(own: Own, r: Own, id: Id, o: Order) {
    GroupOf(r, id) == GroupOf(own, id) + [o] && forall i | i != id :: GroupOf(r, i) == GroupOf(own, i)
  }

  lemma KeysGuess(own: Own, id: Id, o: Order, r: Own)
    requires KeysOk(own)
    requires r == own.(keys := if id in own.groups then own.keys else own.keys + [id], groups := own.groups[id := GroupOf(own, id) + [o]])
    ensures KeysOk(r) && GroupJoined(own, r, id, o)
  {
  }

  lemma GroupsGuess(thoughts: seq<Card>, hand: seq<Order>, own: Own, id: Id, o: Order, r: Own)
    requires o < |thoughts| && InRange(thoughts, hand + [o]) && InRange(thoughts, hand) && GroupsOk(thoughts, hand, own)
    requires GroupJoined(own, r, id, o) && Guesses(thoughts)[o] == Some(id)
    ensures GroupsOk(thoughts, hand + [o], r)
  {
    hide Guesses, GroupOf;
  }

  lemma SizesGuess(thoughts: seq<Card>, hand: seq<Order>, own: Own, id: Id, o: Order, r: Own)
    requires OneMore(thoughts, hand, o) && SizesOk(thoughts, hand, own) && o !in GroupOf(own, id)
    requires GroupJoined(own, r, id, o) && Guesses(thoughts)[o] == Some(id)
    ensures SizesOk(thoughts, hand + [o], r)
  {
    hide Guesses, GroupOf, Copies;
    var group := GroupOf(own, id);
    assert Distinct(group + [o]) by {
      assert forall i | 0 <= i < |group| :: group[i] in group;
    }
    hide Distinct;
  }

  lemma SortedGuess(thoughts: seq<Card>, hand: seq<Order>, o: Order, own: Own, id: Id, r: Own)
    requires Sorted(thoughts, hand, own) && OneMore(thoughts, hand, o) && o !in hand && Guesses(thoughts)[o] == Some(id)
    requires r == own.(keys := if id in own.groups then own.keys else own.keys + [id], groups := own.groups[id := GroupOf(own, id) + [o]])
    ensures Sorted(thoughts, hand + [o], r)
  {
    KeysGuess(own, id, o, r);
    GroupsGuess(thoughts, hand, own, id, o, r);
    SizesGuess(thoughts, hand, own, id, o, r);
    hide KeysOk, SizesOk, GroupsOk, GroupJoined, OneMore, Guesses, Identities, OrdersDiffer, GroupOf;
  }

  /** One of our own cards. */
  method SortCard(thoughts: seq<Card>, ghost hand: seq<Order>, o: Order, own: Own) returns (r: Own)
    requires Sorted(thoughts, hand, own) && o < |thoughts| && o !in hand
    ensures Sorted(thoughts, hand + [o], r)
  {
    var id := thoughts[o].Identity(false);
    var inferred := InferredIdentity(thoughts[o]);
    GuessesNext(thoughts, hand, o);
    hide Copies, InferredIdentity, Distinct;
    if id.Some? {
      r := own.(ids := own.ids + [Owned(o, id)]);
      SortedDirect(thoughts, hand, o, own, r);
    } else if inferred.Some? {
      var group := GroupOf(own, inferred.value) + [o];
      r := own.(keys := if inferred.value in own.groups then own.keys else own.keys + [inferred.value],
                groups := own.groups[inferred.value := group]);
      SortedGuess(thoughts, hand, o, own, inferred.value, r);
    } else {
      r := own.(ids := own.ids + [Owned(o, None)]);
      SortedDirect(thoughts, hand, o, own, r);
    }
  }

  /** The inner loop for one hand. */
  method CountHand(thoughts: seq<Card>, hand: seq<Order>, ours: bool, seen: map<Id, nat>, own: Own)
      returns (seen': map<Id, nat>, own': Own)
    requires Distinct(hand) && (forall o | o in hand :: o < |thoughts|) && (ours ==> Sorted(thoughts, [], own))
    ensures forall id :: Count(seen', id) == Count(seen, id) + Copies(Identities(thoughts), hand, id)
    ensures if ours then Sorted(thoughts, hand, own') else own' == own
  {
    seen', own' := seen, own;
    hide Sorted;
    for j := 0 to |hand|
      invariant forall id :: Count(seen', id) == Count(seen, id) + Copies(Identities(thoughts), hand[..j], id)
      invariant if ours then Sorted(thoughts, hand[..j], own') else own' == own
    {
      var o := hand[j];
      assert o in hand;
      assert hand[..j + 1] == hand[..j] + [o] && o !in hand[..j];
      var id := thoughts[o].Identity(false);
      ghost var before := seen';
      if id.Some? {
        seen' := seen'[id.value := Count(seen', id.value) + 1];
      }
      forall i
        ensures Count(seen', i) == Count(seen, i) + Copies(Identities(thoughts), hand[..j + 1], i)
      {
        CopiesNext(Identities(thoughts), hand[..j], o, i);
      }
      if ours {
        own' := SortCard(thoughts, hand[..j], o, own');
      }
    }
    assert hand[..|hand|] == hand;
  }

  lemma {:induction false} CopiesInNext(deck: Deck, hands: seq<seq<Order>>, hand: seq<Order>, id: Id)
    ensures CopiesIn(deck, hands + [hand], id) == CopiesIn(deck, hands, id) + Copies(deck, hand, id)
  {
    if hands == [] {
      assert ([] + [hand])[1..] == [];
    } else {
      assert (hands + [hand])[1..] == hands[1..] + [hand];
      CopiesInNext(deck, hands[1..], hand, id);
    }
  }

  /** The loop over all hands. */
  method CountHands(st: State, thoughts: seq<Card>, our: nat) returns (seen: map<Id, nat>, own: Own)
    requires Readable(st, thoughts, our)
    ensures forall id :: Count(seen, id) == CopiesIn(Identities(thoughts), st.hands, id)
    ensures Sorted(thoughts, st.hands[our], own)
  {
    seen, own := map[], Own([], [], map[]);
    for p := 0 to |st.hands|
      invariant forall id :: Count(seen, id) == CopiesIn(Identities(thoughts), st.hands[..p], id)
      invariant if p <= our then own == Own([], [], map[]) else Sorted(thoughts, st.hands[our], own)
    {
      assert st.hands[..p + 1] == st.hands[..p] + [st.hands[p]] && st.hands[p] in st.hands;
      ghost var before := seen;
      seen, own := CountHand(thoughts, st.hands[p], p == our, seen, own);
      forall id
        ensures Count(seen, id) == CopiesIn(Identities(thoughts), st.hands[..p + 1], id)
      {
        CopiesInNext(Identities(thoughts), st.hands[..p], st.hands[p], id);
      }
    }
    assert st.hands[..|st.hands|] == st.hands;
  }

  /** Every card of our hand is listed once, with what it is taken to be. */
  ghost predicate OwnListed(st: State, thoughts: seq<Card>, our: nat, ids: seq<Owned>)
    requires Readable(st, thoughts, our)
  {
    && OrdersDiffer(ids)
    && (forall x | x in ids :: x.order in st.hands[our] && x.order < |thoughts| && x.id == Assumed(st, thoughts, our)[x.order])
    && (forall o | o in st.hands[our] :: Names(ids, o))
  }

  /** The first g groups have been counted, unless they were too large. */
  ghost predicate Counted(st: State, thoughts: seq<Card>, our: nat, own: Own, g: nat, seen: map<Id, nat>)
    requires Readable(st, thoughts, our) && g <= |own.keys|
  {
    forall id | st.ValidId(id) :: Count(seen, id) == CopiesIn(Identities(thoughts), st.hands, id)
      + if id in own.keys[..g] && !TooMany(st, thoughts, st.hands[our], id) then |GroupOf(own, id)| else 0
  }

  predicate Reached(guesses: Deck, keys: seq<Id>, o: Order)
    requires o < |guesses|
  {
    guesses[o].Some? ==> guesses[o].value in keys
  }

  ghost predicate Covers(hand: seq<Order>, guesses: Deck, assumed: Deck) {
    |guesses| == |assumed| && forall o | o in hand :: o < |guesses|
  }

  /** The cards of the groups with these keys have been listed. */
  ghost predicate Decided(hand: seq<Order>, guesses: Deck, assumed: Deck, keys: seq<Id>, ids: seq<Owned>)
    requires Covers(hand, guesses, assumed)
  {
    && OrdersDiffer(ids)
    && (forall x | x in ids :: x.order in hand && x.id == assumed[x.order] && Reached(guesses, keys, x.order))
    && (forall o | o in hand && Reached(guesses, keys, o) :: Names(ids, o))
  }

  ghost predicate Names(ids: seq<Owned>, o: Order) {
    exists x :: x in ids && x.order == o
  }

  lemma DecidedStart(st: State, thoughts: seq<Card>, our: nat, own: Own, seen: map<Id, nat>)
    requires Readable(st, thoughts, our) && Sorted(thoughts, st.hands[our], own)
    requires forall id :: Count(seen, id) == CopiesIn(Identities(thoughts), st.hands, id)
    ensures Covers(st.hands[our], Guesses(thoughts), Assumed(st, thoughts, our))
    ensures Counted(st, thoughts, our, own, 0, seen) && Decided(st.hands[our], Guesses(thoughts), Assumed(st, thoughts, our), [], own.ids)
  {
    hide Copies, CopiesIn, TooMany, GroupsOk, KeysOk, SizesOk;
    forall o | o in st.hands[our] && Guesses(thoughts)[o].None?
      ensures Names(own.ids, o)
    {
      assert Owned(o, Identities(thoughts)[o]) in own.ids;
    }
  }

  lemma DecidedEnd(st: State, thoughts: seq<Card>, our: nat, own: Own, seen: map<Id, nat>, ids: seq<Owned>)
    requires Readable(st, thoughts, our) && Sorted(thoughts, st.hands[our], own)
    requires Covers(st.hands[our], Guesses(thoughts), Assumed(st, thoughts, our)) && Counted(st, thoughts, our, own, |own.keys|, seen)
    requires Decided(st.hands[our], Guesses(thoughts), Assumed(st, thoughts, our), own.keys, ids)
    ensures OwnListed(st, thoughts, our, ids)
    ensures forall id | st.ValidId(id) :: Count(seen, id) == CopiesIn(Assumed(st, thoughts, our), st.hands, id)
  {
    hide DirectOk;
    assert own.keys[..|own.keys|] == own.keys;
    forall id | st.ValidId(id)
      ensures Count(seen, id) == CopiesIn(Assumed(st, thoughts, our), st.hands, id)
    {
      AssumedSplits(st, thoughts, our, id);
    }
    hide Copies, CopiesIn, TooMany, Guesses, Counted, SizesOk, Assumed;
    forall o | o in st.hands[our]
      ensures Names(ids, o)
    {
      if Guesses(thoughts)[o].Some? { assert o in GroupOf(own, Guesses(thoughts)[o].value); }
    }
  }

  lemma GuessIs(thoughts: seq<Card>, o: Order)
    requires o < |thoughts|
    ensures Guesses(thoughts)[o].Some? ==> Guesses(thoughts)[o] == InferredIdentity(thoughts[o])
  {
  }

  /** A card's group decides what the card is taken to be. */
  lemma GroupAssumed(st: State, thoughts: seq<Card>, our: nat, own: Own, id: Id, o: Order)
    requires Readable(st, thoughts, our) && Sorted(thoughts, st.hands[our], own) && o in GroupOf(own, id)
    ensures o in st.hands[our] && o < |thoughts| && Guesses(thoughts)[o] == Some(id) && st.ValidId(id)
    ensures Assumed(st, thoughts, our)[o] == if TooMany(st, thoughts, st.hands[our], id) then None else Some(id)
  {
    hide TooMany, Copies, DirectOk, SizesOk, KeysOk;
    assert o in st.hands[our] && Guesses(thoughts)[o] == Some(id);
    GuessIs(thoughts, o);
    hide InferredIdentity;
  }

  function OwnedAs(orders: seq<Order>, id: Option<Id>): (r: seq<Owned>)
    ensures |r| == |orders| && forall i | 0 <= i < |r| :: r[i] == Owned(orders[i], id)
  {
    seq(|orders|, i requires 0 <= i < |orders| => Owned(orders[i], id))
  }

  lemma CountedNext(st: State, thoughts: seq<Card>, our: nat, own: Own, g: nat, seen: map<Id, nat>, seen': map<Id, nat>)
    requires Readable(st, thoughts, our) && KeysOk(own) && g < |own.keys|
    requires Counted(st, thoughts, our, own, g, seen) && st.ValidId(own.keys[g])
    requires seen' == if TooMany(st, thoughts, st.hands[our], own.keys[g]) then seen
                      else seen[own.keys[g] := Count(seen, own.keys[g]) + |GroupOf(own, own.keys[g])|]
    ensures Counted(st, thoughts, our, own, g + 1, seen')
  {
    var id := own.keys[g];
    assert own.keys[..g + 1] == own.keys[..g] + [id] && id !in own.keys[..g];
    hide TooMany, CopiesIn, Identities, GroupOf, KeysOk;
  }

  lemma KeyPrefix(own: Own, g: nat)
    requires KeysOk(own) && g < |own.keys|
    ensures own.keys[..g + 1] == own.keys[..g] + [own.keys[g]] && own.keys[g] !in own.keys[..g]
  {
  }

  lemma GroupFacts(st: State, thoughts: seq<Card>, our: nat, own: Own, id: Id)
    requires Readable(st, thoughts, our) && Sorted(thoughts, st.hands[our], own)
    ensures Distinct(GroupOf(own, id))
    ensures forall o | o in st.hands[our] && o < |thoughts| && Guesses(thoughts)[o] == Some(id) :: o in GroupOf(own, id)
  {
    hide Guesses, GroupOf, DirectOk, KeysOk;
  }

  lemma DecidedNext(st: State, thoughts: seq<Card>, our: nat, own: Own, g: nat, ids: seq<Owned>, more: seq<Owned>)
    requires Readable(st, thoughts, our) && Sorted(thoughts, st.hands[our], own) && g < |own.keys|
    requires Covers(st.hands[our], Guesses(thoughts), Assumed(st, thoughts, our))
    requires Decided(st.hands[our], Guesses(thoughts), Assumed(st, thoughts, our), own.keys[..g], ids)
    requires st.ValidId(own.keys[g])
    requires more == OwnedAs(GroupOf(own, own.keys[g]), if TooMany(st, thoughts, st.hands[our], own.keys[g]) then None else Some(own.keys[g]))
    ensures Decided(st.hands[our], Guesses(thoughts), Assumed(st, thoughts, our), own.keys[..g + 1], ids + more)
  {
    var id := own.keys[g];
    var group := GroupOf(own, id);
    KeyPrefix(own, g);
    GroupFacts(st, thoughts, our, own, id);
    hide TooMany, Copies, CopiesIn, Assumed, Guesses, Identities, InferredIdentity, Distinct, Decided;
    forall i | 0 <= i < |group|
      ensures group[i] in st.hands[our] && Guesses(thoughts)[group[i]] == Some(id) && more[i] == Owned(group[i], Assumed(st, thoughts, our)[group[i]])
    {
      GroupAssumed(st, thoughts, our, own, id, group[i]);
    }
    hide *;
    MoreDecided(st.hands[our], Guesses(thoughts), Assumed(st, thoughts, our), own.keys[..g], id, group, ids, more);
  }

  lemma MoreDecided(hand: seq<Order>, guesses: Deck, assumed: Deck, keys: seq<Id>, id: Id, group: seq<Order>, ids: seq<Owned>, more: seq<Owned>)
    requires Covers(hand, guesses, assumed) && Decided(hand, guesses, assumed, keys, ids) && id !in keys && Distinct(group) && |more| == |group|
    requires forall i | 0 <= i < |group| :: group[i] in hand && guesses[group[i]] == Some(id) && more[i] == Owned(group[i], assumed[group[i]])
    requires forall o | o in hand && guesses[o] == Some(id) :: o in group
    ensures Decided(hand, guesses, assumed, keys + [id], ids + more)
  {
    MoreDiffers(guesses, ids, group, id, more);
    hide OrdersDiffer;
    forall x | x in ids + more
      ensures x.order in hand && x.id == assumed[x.order] && Reached(guesses, keys + [id], x.order)
    {
      if x !in ids {
        var i :| 0 <= i < |more| && more[i] == x;
        assert group[i] in hand;
      }
    }
    forall o | o in hand && Reached(guesses, keys + [id], o)
      ensures Names(ids + more, o)
    {
      if Reached(guesses, keys, o) {
        assert Names(ids, o);
        var x :| x in ids && x.order == o;
        assert x in ids + more;
      } else {
        var i :| 0 <= i < |group| && group[i] == o;
        assert more[i] in ids + more;
      }
    }
  }

  lemma MoreDiffers(guesses: Deck, ids: seq<Owned>, group: seq<Order>, id: Id, more: seq<Owned>)
    requires OrdersDiffer(ids) && Distinct(group) && |more| == |group|
    requires forall i | 0 <= i < |more| :: more[i].order == group[i] < |guesses| && guesses[group[i]] == Some(id)
    requires forall x | x in ids :: x.order < |guesses| && guesses[x.order] != Some(id)
    ensures OrdersDiffer(ids + more)
  {
    var all := ids + more;
    forall i, j | 0 <= i < j < |all|
      ensures all[i].order != all[j].order
    {
      if i < |ids| <= j {
        assert ids[i] in ids;
      }
    }
  }

  /** The first g groups have been dealt with. */
  ghost predicate Done(st: State, thoughts: seq<Card>, our: nat, own: Own, g: nat, seen: map<Id, nat>, ids: seq<Owned>) {
    && Readable(st, thoughts, our) && g <= |own.keys| && Counted(st, thoughts, our, own, g, seen)
    && Covers(st.hands[our], Guesses(thoughts), Assumed(st, thoughts, our))
    && Decided(st.hands[our], Guesses(thoughts), Assumed(st, thoughts, our), own.keys[..g], ids)
  }

  method PushAll(ids: seq<Owned>, orders: seq<Order>, id: Option<Id>) returns (ids': seq<Owned>)
    ensures ids' == ids + OwnedAs(orders, id)
  {
    ids' := ids;
    for i := 0 to |orders|
      invariant ids' == ids + OwnedAs(orders[..i], id)
    {
      ids' := ids' + [Owned(orders[i], id)];
      assert OwnedAs(orders[..i + 1], id) == OwnedAs(orders[..i], id) + [Owned(orders[i], id)];
    }
    assert orders[..|orders|] == orders;
  }

  /** `too_many`, and the update of `seen_ids`. */
  method CountGroup(st: State, thoughts: seq<Card>, our: nat, own: Own, g: nat, seen: map<Id, nat>)
      returns (tooMany: bool, seen': map<Id, nat>)
    requires Readable(st, thoughts, our) && Sorted(thoughts, st.hands[our], own) && g < |own.keys|
    requires Counted(st, thoughts, our, own, g, seen)
    ensures st.ValidId(own.keys[g]) && (tooMany <==> TooMany(st, thoughts, st.hands[our], own.keys[g]))
    ensures Counted(st, thoughts, our, own, g + 1, seen')
  {
    var id := own.keys[g];
    hide Counted, TooMany, Copies, CopiesIn, Identities, Guesses, InferredIdentity;
    hide SizesOk, DirectOk, GroupsOk, InRange;
    KeyValid(st, thoughts, our, own, id);
    SameTest(st, thoughts, our, own, g, seen);
    var count, size := Count(seen, id), |GroupOf(own, id)|;
    tooMany := count + size + st.BaseCount(id) > st.CardCount(id);
    seen' := seen;
    if !tooMany {
      seen' := seen[id := count + size];
    }
    CountedNext(st, thoughts, our, own, g, seen, seen');
  }

  /** The body of the loop over the groups. */
  method DecideGroup(st: State, thoughts: seq<Card>, our: nat, own: Own, g: nat, seen: map<Id, nat>, ids: seq<Owned>)
      returns (seen': map<Id, nat>, ids': seq<Owned>)
    requires our < |st.hands| && Sorted(thoughts, st.hands[our], own) && g < |own.keys|
    requires Done(st, thoughts, our, own, g, seen, ids)
    ensures Done(st, thoughts, our, own, g + 1, seen', ids')
  {
    hide Counted, Decided, Covers, TooMany, Sorted, Assumed, Guesses, OwnedAs;
    var tooMany;
    tooMany, seen' := CountGroup(st, thoughts, our, own, g, seen);
    var id := own.keys[g];
    ids' := PushAll(ids, GroupOf(own, id), if tooMany then None else Some(id));
    hide GroupOf;
    DecidedNext(st, thoughts, our, own, g, ids, OwnedAs(GroupOf(own, id), if tooMany then None else Some(id)));
  }

  /** The loop over the groups of inferred cards: a group is taken at its word unless it is too large. */
  method DecideGroups(st: State, thoughts: seq<Card>, our: nat, seen: map<Id, nat>, own: Own)
      returns (seen': map<Id, nat>, ids: seq<Owned>)
    requires Readable(st, thoughts, our) && Sorted(thoughts, st.hands[our], own)
    requires forall id :: Count(seen, id) == CopiesIn(Identities(thoughts), st.hands, id)
    ensures OwnListed(st, thoughts, our, ids)
    ensures forall id | st.ValidId(id) :: Count(seen', id) == CopiesIn(Assumed(st, thoughts, our), st.hands, id)
  {
    seen', ids := seen, own.ids;
    DecidedStart(st, thoughts, our, own, seen);
    for g := 0 to |own.keys|
      invariant Done(st, thoughts, our, own, g, seen', ids)
    {
      seen', ids := DecideGroup(st, thoughts, our, own, g, seen', ids);
    }
    DecidedEnd(st, thoughts, our, own, seen', ids);
  }

  lemma SameTest(st: State, thoughts: seq<Card>, our: nat, own: Own, g: nat, seen: map<Id, nat>)
    requires Readable(st, thoughts, our) && Sorted(thoughts, st.hands[our], own) && g < |own.keys| && st.ValidId(own.keys[g])
    requires Counted(st, thoughts, our, own, g, seen)
    ensures TooMany(st, thoughts, st.hands[our], own.keys[g]) ==
              (Count(seen, own.keys[g]) + |GroupOf(own, own.keys[g])| + st.BaseCount(own.keys[g]) > st.CardCount(own.keys[g]))
  {
    assert own.keys[g] !in own.keys[..g];
  }

  lemma KeyValid(st: State, thoughts: seq<Card>, our: nat, own: Own, id: Id)
    requires Readable(st, thoughts, our) && Sorted(thoughts, st.hands[our], own) && id in own.keys
    ensures st.ValidId(id)
  {
    GroupAssumed(st, thoughts, our, own, id, GroupOf(own, id)[0]);
  }

  lemma UnseenNext(st: State, known: Deck, suit: nat, rank: nat)
    requires st.WellFormed() && suit < st.NumSuits() && 1 <= rank <= MAX_RANK
    ensures 0 <= suit * MAX_RANK + rank - 1 < suit * MAX_RANK + rank <= st.NumSuits() * MAX_RANK
    ensures var id := Id(suit, rank);
            st.ValidId(id) && UnseenUpTo(st, known, suit * MAX_RANK + rank) == UnseenUpTo(st, known, suit * MAX_RANK + rank - 1)
              + if Unseen(st, known, id) > 0 then [Remaining(id, Unseen(st, known, id), Unseen(st, known, id) == st.CardCount(id))] else []
  {
    assert IdAt(suit * MAX_RANK + rank - 1) == Id(suit, rank);
    assert suit * MAX_RANK + MAX_RANK <= st.NumSuits() * MAX_RANK;
  }

  /** The loop over the ranks of a suit. */
  method ListSuit(st: State, seen: map<Id, nat>, ghost known: Deck, suit: nat, list: seq<Remaining>) returns (remaining: seq<Remaining>)
    requires st.WellFormed() && forall id | st.ValidId(id) :: Count(seen, id) == CopiesIn(known, st.hands, id)
    requires suit < st.NumSuits() && suit * MAX_RANK <= st.NumSuits() * MAX_RANK && list == UnseenUpTo(st, known, suit * MAX_RANK)
    ensures (suit + 1) * MAX_RANK <= st.NumSuits() * MAX_RANK && remaining == UnseenUpTo(st, known, (suit + 1) * MAX_RANK)
  {
    remaining := list;
    hide UnseenUpTo, CopiesIn;
    for rank := 1 to MAX_RANK + 1
      invariant suit * MAX_RANK + rank - 1 <= st.NumSuits() * MAX_RANK && remaining == UnseenUpTo(st, known, suit * MAX_RANK + rank - 1)
    {
      var id := Id(suit, rank);
      UnseenNext(st, known, suit, rank);
      var total := st.CardCount(id);
      var missing := total - st.BaseCount(id) - Count(seen, id);
      if missing > 0 {
        remaining := remaining + [Remaining(id, missing, missing == total)];
      }
    }
  }

  /** The loop over suits and ranks. */
  method ListRemaining(st: State, seen: map<Id, nat>, ghost known: Deck) returns (remaining: seq<Remaining>)
    requires st.WellFormed() && forall id | st.ValidId(id) :: Count(seen, id) == CopiesIn(known, st.hands, id)
    ensures remaining == AllUnseen(st, known)
  {
    remaining := [];
    for suit := 0 to st.NumSuits()
      invariant suit * MAX_RANK <= st.NumSuits() * MAX_RANK && remaining == UnseenUpTo(st, known, suit * MAX_RANK)
    {
      remaining := ListSuit(st, seen, known, suit, remaining);
    }
  }

  /** `find_remaining_identities` */
  method FindRemainingIdentities(st: State, thoughts: seq<Card>, our: nat) returns (remaining: seq<Remaining>, ownIds: seq<Owned>)
    requires Readable(st, thoughts, our)
    ensures remaining == AllUnseen(st, Assumed(st, thoughts, our))
    ensures OwnListed(st, thoughts, our, ownIds)
  {
    var seen, own := CountHands(st, thoughts, our);
    seen, ownIds := DecideGroups(st, thoughts, our, seen, own);
    remaining := ListRemaining(st, seen, Assumed(st, thoughts, our));
  }
}
