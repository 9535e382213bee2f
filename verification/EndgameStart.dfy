// The opening of `solve_game` in src/conventions/shared/endgame.js: our own cards are written into the deck,
// and the positions that the endgame search starts from are consistent.
module EndgameStart {
  import opened Cards
  import opened GameState
  import opened Beliefs
  import opened TableLaws
  import opened EndgameSteps
  import opened EndgameGame
  import opened EndgameArrangements
  import opened EndgameRemaining

  // ----- Unknown cards of our own -----

  /** `unknown_own` */
  function Unknown(ids: seq<Owned>): seq<Order> {
    if ids == [] then []
    else (if ids[0].id.None? then [ids[0].order] else []) + Unknown(ids[1..])
  }

  lemma {:induction false} UnknownMembers(ids: seq<Owned>)
    requires OrdersDiffer(ids)
    ensures forall o :: o in Unknown(ids) <==> Owned(o, None) in ids
    ensures Distinct(Unknown(ids))
  {
    if ids != [] {
      assert ids == [ids[0]] + ids[1..];
      assert OrdersDiffer(ids[1..]);
      UnknownMembers(ids[1..]);
      var rest := Unknown(ids[1..]);
      assert forall i | 0 <= i < |rest| :: rest[i] in rest;
      forall o | Owned(o, None) in ids[1..]
        ensures o != ids[0].order
      {
        var i :| 0 <= i < |ids[1..]| && ids[1..][i] == Owned(o, None);
        assert ids[i + 1].order == o;
      }
    }
  }

  ghost function BlankSet(deck: Deck, hand: seq<Order>): set<Order> {
    set o: Order | o in hand && o < |deck| && deck[o].None?
  }

  lemma FirstBlank(deck: Deck, hand: seq<Order>)
    requires hand != [] && Distinct(hand) && hand[0] < |deck|
    ensures |BlankSet(deck, hand)| == |BlankSet(deck, hand[1..])| + if deck[hand[0]].None? then 1 else 0
  {
    var o, rest := hand[0], hand[1..];
    assert hand == [o] + rest && o !in rest;
    if deck[o].None? {
      assert BlankSet(deck, hand) == BlankSet(deck, rest) + {o};
    } else {
      assert BlankSet(deck, hand) == BlankSet(deck, rest);
    }
  }

  lemma {:induction false} BlanksAreCards(deck: Deck, hand: seq<Order>)
    requires Distinct(hand) && forall o | o in hand :: o < |deck|
    ensures |hand| - Filled(deck, hand) == |BlankSet(deck, hand)|
  {
    if hand != [] {
      assert hand[0] in hand && forall o | o in hand[1..] :: o in hand;
      BlanksAreCards(deck, hand[1..]);
      FirstBlank(deck, hand);
    }
  }

  lemma {:induction false} DistinctSize(s: seq<Order>)
    requires Distinct(s)
    ensures |set o: Order | o in s| == |s|
  {
    if s != [] {
      DistinctSize(s[1..]);
      var all, tail := set o: Order | o in s, set o: Order | o in s[1..];
      assert s == [s[0]] + s[1..];
      assert s[0] !in tail && all == tail + {s[0]};
    }
  }

  /** `unknown_own` has an entry for every card of our hand that is not taken to be anything. */
  lemma UnknownAreBlank(st: State, thoughts: seq<Card>, our: nat, ids: seq<Owned>)
    requires Readable(st, thoughts, our) && OwnListed(st, thoughts, our, ids)
    ensures |Unknown(ids)| == |st.hands[our]| - Filled(Assumed(st, thoughts, our), st.hands[our])
  {
    var known, hand := Assumed(st, thoughts, our), st.hands[our];
    hide Assumed;
    assert hand in st.hands;
    assert Distinct(hand);
    UnknownMembers(ids);
    DistinctSize(Unknown(ids));
    BlanksAreCards(known, hand);
    forall o | o in BlankSet(known, hand)
      ensures o in Unknown(ids)
    {
      assert Names(ids, o);
    }
    assert (set o: Order | o in Unknown(ids)) == BlankSet(known, hand);
  }

  // ----- The assertion on arrangements -----

  lemma {:induction false} FilledAtMost(deck: Deck, hand: seq<Order>)
    ensures Filled(deck, hand) <= |hand|
    ensures Filled(deck, hand) == |hand| <==> forall o | o in hand :: o < |deck| && deck[o].Some?
  {
    if hand != [] {
      assert hand[0] in hand && forall o | o in hand[1..] :: o in hand;
      assert hand == [hand[0]] + hand[1..];
      FilledAtMost(deck, hand[1..]);
    }
  }

  lemma {:induction false} FilledInAtMost(deck: Deck, hands: seq<seq<Order>>)
    ensures FilledIn(deck, hands) <= CardsIn(hands)
    ensures FilledIn(deck, hands) == CardsIn(hands) <==> forall h, o | h in hands && o in h :: o < |deck| && deck[o].Some?
  {
    if hands != [] {
      assert hands == [hands[0]] + hands[1..];
      FilledAtMost(deck, hands[0]);
      FilledInAtMost(deck, hands[1..]);
    }
  }

  lemma {:induction false} FilledSplit(deck: Deck, hands: seq<seq<Order>>, p: nat)
    requires p < |hands|
    ensures FilledIn(deck, hands) == FilledIn(deck, hands[p := []]) + Filled(deck, hands[p])
    ensures CardsIn(hands) == CardsIn(hands[p := []]) + |hands[p]|
  {
    if p == 0 {
      assert hands[p := []][1..] == hands[1..];
    } else {
      assert hands[p := []][1..] == hands[1..][p - 1 := []];
      FilledSplit(deck, hands[1..], p - 1);
    }
  }

  /** Every other player's card is identified. */
  ghost predicate OthersIdentified(st: State, thoughts: seq<Card>, our: nat) {
    forall p, o | 0 <= p < |st.hands| && p != our && o in st.hands[p] :: o < |thoughts| && thoughts[o].Identity(false).Some?
  }

  lemma OthersFilled(st: State, thoughts: seq<Card>, our: nat)
    requires Readable(st, thoughts, our)
    ensures OthersIdentified(st, thoughts, our) <==>
              forall h, o | h in Others(st, our) && o in h :: o < |thoughts| && Assumed(st, thoughts, our)[o].Some?
  {
    forall p, o | 0 <= p < |st.hands| && p != our && o in st.hands[p]
      ensures o < |thoughts| && Assumed(st, thoughts, our)[o] == thoughts[o].Identity(false) && st.hands[p] in Others(st, our)
    {
      OthersApart(st, our, p, o);
      assert Others(st, our)[p] == st.hands[p] && st.hands[p] in st.hands;
    }
    forall h, o | h in Others(st, our) && o in h && OthersIdentified(st, thoughts, our)
      ensures o < |thoughts| && Assumed(st, thoughts, our)[o].Some?
    {
      var p :| 0 <= p < |Others(st, our)| && Others(st, our)[p] == h;
      if p != our { assert st.hands[p] == h; }
    }
  }

  /** The unseen copies fit the undrawn cards and our unknown cards exactly when every other card is identified:
      this is the assertion that `solve_game` makes about every arrangement. */
  lemma MassFits(w: Deal, st: State, thoughts: seq<Card>, our: nat, ids: seq<Owned>)
    requires Readable(st, thoughts, our) && Consistent(w, st, thoughts) && Placed(w, st) && Conserved(w, st)
    requires OwnListed(st, thoughts, our, ids)
    ensures Total(AllUnseen(st, Assumed(st, thoughts, our))) == st.cardsLeft + |Unknown(ids)| <==> OthersIdentified(st, thoughts, our)
  {
    var known := Assumed(st, thoughts, our);
    UnseenAreUndrawnOrBlank(w, st, thoughts, our);
    UnknownAreBlank(st, thoughts, our, ids);
    OthersFilled(st, thoughts, our);
    hide Assumed, AllUnseen, OthersIdentified, Consistent, Conserved, OwnListed;
    FilledSplit(known, st.hands, our);
    FilledInAtMost(known, Others(st, our));
  }

  // ----- Writing our cards into the deck -----

  /** Our cards that are taken to be something. */
  function WriteOwned(deck: Deck, owned: seq<Owned>): (d: Deck)
    requires forall x | x in owned :: x.order < |deck|
    ensures |d| == |deck|
    decreases |owned|
  {
    if owned == [] then deck
    else WriteOwned(if owned[0].id.Some? then deck[owned[0].order := owned[0].id] else deck, owned[1..])
  }

  /** The identities that an arrangement gives to our unknown cards. */
  function Write(deck: Deck, orders: seq<Order>, ids: seq<Id>): (d: Deck)
    requires |orders| == |ids| && forall o | o in orders :: o < |deck|
    ensures |d| == |deck|
    decreases |orders|
  {
    if orders == [] then deck
    else
      assert orders[0] in orders && forall o | o in orders[1..] :: o in orders;
      Write(deck[orders[0] := Some(ids[0])], orders[1..], ids[1..])
  }

  lemma UnknownStep(first: Owned, rest: seq<Owned>)
    ensures Unknown([first] + rest) == (if first.id.Some? then [] else [first.order]) + Unknown(rest)
  {
    assert ([first] + rest)[1..] == rest;
  }

  /** The loop that writes what our cards are taken to be. */
  method WriteKnown(st: State, owned: seq<Owned>) returns (deck: Deck, unknown: seq<Order>)
    requires forall x | x in owned :: x.order < |st.deck|
    ensures deck == WriteOwned(st.deck, owned) && unknown == Unknown(owned)
  {
    deck, unknown := st.deck, [];
    for i := 0 to |owned|
      invariant |deck| == |st.deck| && WriteOwned(st.deck, owned) == WriteOwned(deck, owned[i..])
      invariant Unknown(owned) == unknown + Unknown(owned[i..])
    {
      ghost var rest := owned[i + 1..];
      assert owned[i..] == [owned[i]] + rest && owned[i] in owned;
      UnknownStep(owned[i], rest);
      if owned[i].id.Some? {
        deck := deck[owned[i].order := owned[i].id];
      } else {
        unknown := unknown + [owned[i].order];
      }
    }
  }

  /** The loop that writes an arrangement. */
  method WriteArranged(known: Deck, unknown: seq<Order>, ids: seq<Id>) returns (deck: Deck)
    requires |unknown| == |ids| && forall o | o in unknown :: o < |known|
    ensures deck == Write(known, unknown, ids)
  {
    deck := known;
    for i := 0 to |ids|
      invariant |deck| == |known| && forall o | o in unknown[i..] :: o in unknown
      invariant Write(known, unknown, ids) == Write(deck, unknown[i..], ids[i..])
    {
      assert unknown[i..][0] == unknown[i] && unknown[i..][1..] == unknown[i + 1..] && ids[i..][1..] == ids[i + 1..];
      assert unknown[i] in unknown;
      deck := deck[unknown[i] := Some(ids[i])];
    }
  }

  lemma {:induction false} OwnedElsewhere(deck: Deck, owned: seq<Owned>, o: Order)
    requires (forall x | x in owned :: x.order < |deck| && x.order != o) && o < |deck|
    ensures WriteOwned(deck, owned)[o] == deck[o]
    decreases |owned|
  {
    if owned != [] {
      assert owned[0] in owned && forall x | x in owned[1..] :: x in owned;
      OwnedElsewhere(if owned[0].id.Some? then deck[owned[0].order := owned[0].id] else deck, owned[1..], o);
    }
  }

  lemma {:induction false} OwnedWritten(deck: Deck, owned: seq<Owned>, x: Owned)
    requires (forall y | y in owned :: y.order < |deck|) && OrdersDiffer(owned) && x in owned && x.id.Some?
    ensures WriteOwned(deck, owned)[x.order] == x.id
    decreases |owned|
  {
    var next := if owned[0].id.Some? then deck[owned[0].order := owned[0].id] else deck;
    assert owned == [owned[0]] + owned[1..] && OrdersDiffer(owned[1..]);
    if x == owned[0] {
      forall y | y in owned[1..]
        ensures y.order != x.order
      {
        var i :| 0 <= i < |owned[1..]| && owned[1..][i] == y;
        assert owned[i + 1] == y;
      }
      OwnedElsewhere(next, owned[1..], x.order);
    } else {
      OwnedWritten(next, owned[1..], x);
    }
  }

  lemma {:induction false} WriteElsewhere(deck: Deck, orders: seq<Order>, ids: seq<Id>, o: Order)
    requires |orders| == |ids| && (forall x | x in orders :: x < |deck| && x != o) && o < |deck|
    ensures Write(deck, orders, ids)[o] == deck[o]
    decreases |orders|
  {
    if orders != [] {
      assert orders[0] in orders && forall x | x in orders[1..] :: x in orders;
      WriteElsewhere(deck[orders[0] := Some(ids[0])], orders[1..], ids[1..], o);
    }
  }

  /** Two decks that agree but for the written cards agree once those are written. */
  lemma {:induction false} WriteAgrees(a: Deck, b: Deck, orders: seq<Order>, ids: seq<Id>, o: Order)
    requires |orders| == |ids| && (forall x | x in orders :: x < |a| && x < |b|) && o < |a| && o < |b| && (o in orders || a[o] == b[o])
    ensures Write(a, orders, ids)[o] == Write(b, orders, ids)[o]
    decreases |orders|
  {
    if orders != [] {
      assert orders[0] in orders && forall x | x in orders[1..] :: x in orders;
      assert orders == [orders[0]] + orders[1..];
      WriteAgrees(a[orders[0] := Some(ids[0])], b[orders[0] := Some(ids[0])], orders[1..], ids[1..], o);
    }
  }

  lemma {:induction false} CopiesUpdate(deck: Deck, hand: seq<Order>, o: Order, v: Id, id: Id)
    requires Distinct(hand) && o < |deck| && deck[o].None?
    ensures Copies(deck[o := Some(v)], hand, id) == Copies(deck, hand, id) + if o in hand && v == id then 1 else 0
  {
    if hand != [] {
      assert hand == [hand[0]] + hand[1..] && hand[0] !in hand[1..];
      CopiesUpdate(deck, hand[1..], o, v, id);
    }
  }

  /** Writing cards of a hand that were blank adds their copies. */
  lemma {:induction false} CopiesWritten(deck: Deck, hand: seq<Order>, orders: seq<Order>, ids: seq<Id>, id: Id)
    requires Distinct(hand) && Distinct(orders) && |orders| == |ids|
    requires forall o | o in orders :: o in hand && o < |deck| && deck[o].None?
    ensures Copies(Write(deck, orders, ids), hand, id) == Copies(deck, hand, id) + multiset(ids)[id]
    decreases |orders|
  {
    if orders != [] {
      assert orders == [orders[0]] + orders[1..] && ids == [ids[0]] + ids[1..] && orders[0] in orders && orders[0] !in orders[1..];
      CopiesUpdate(deck, hand, orders[0], ids[0], id);
      CopiesWritten(deck[orders[0] := Some(ids[0])], hand, orders[1..], ids[1..], id);
    }
  }

  // ----- The start of a search is consistent -----

  lemma {:induction false} CopiesInMono(a: Deck, b: Deck, hands: seq<seq<Order>>, id: Id)
    requires forall h, o | h in hands && o in h && o < |a| && a[o] == Some(id) :: o < |b| && b[o] == Some(id)
    ensures CopiesIn(a, hands, id) <= CopiesIn(b, hands, id)
  {
    if hands != [] {
      assert hands[0] in hands && forall h | h in hands[1..] :: h in hands;
      CopiesMono(a, b, hands[0], id);
      CopiesInMono(a, b, hands[1..], id);
    }
  }

  lemma {:induction false} CopiesMono(a: Deck, b: Deck, hand: seq<Order>, id: Id)
    requires forall o | o in hand && o < |a| && a[o] == Some(id) :: o < |b| && b[o] == Some(id)
    ensures Copies(a, hand, id) <= Copies(b, hand, id)
  {
    if hand != [] {
      assert hand[0] in hand && forall o | o in hand[1..] :: o in hand;
      CopiesMono(a, b, hand[1..], id);
    }
  }

  /** Dealing out takes exactly the dealt copies from the list. */
  lemma {:induction false} DealtCopies(start: seq<Remaining>, possible: Belief, ids: seq<Id>, id: Id)
    requires EndgameArrangements.Listing(start) && DealOut(start, possible, ids).Some?
    ensures Missing(DealOut(start, possible, ids).value, id) == Missing(start, id) - multiset(ids)[id]
    ensures RemainingOk(start) ==> RemainingOk(DealOut(start, possible, ids).value)
    ensures forall r | r in DealOut(start, possible, ids).value :: exists q :: q in start && q.id == r.id
    ensures forall i | i in ids :: exists q :: q in start && q.id == i
  {
    if ids != [] {
      var front, last := ids[..|ids| - 1], ids[|ids| - 1];
      assert ids == front + [last];
      DealtCopies(start, possible, front, id);
      var left := DealOut(start, possible, front).value;
      RemoveRemainingCounts(left, last, id);
      if RemainingOk(start) { RemoveRemainingOk(left, last); }
      RemovedStays(left, last);
    }
  }

  lemma {:induction false} RemovedStays(remaining: seq<Remaining>, id: Id)
    requires (forall r | r in remaining :: r.missing >= 1) && Drawable(remaining, id)
    ensures forall r | r in RemoveRemaining(remaining, id) :: exists q :: q in remaining && q.id == r.id
  {
    if remaining[0].id == id {
      assert remaining[0] in remaining && forall r | r in remaining[1..] :: r in remaining;
    } else {
      var r :| r in remaining && r.id == id;
      assert r in remaining[1..];
      RemovedStays(remaining[1..], id);
      assert remaining[0] in remaining && forall q | q in remaining[1..] :: q in remaining;
    }
  }

  /** The other players' cards are known to the table only as we know them. */
  ghost predicate OthersSeen(st: State, thoughts: seq<Card>, our: nat) {
    forall p, o | 0 <= p < |st.hands| && p != our && o in st.hands[p] ::
      o < |st.deck| && o < |thoughts| && st.deck[o] == thoughts[o].Identity(false)
  }

  /** What `solve_game` starts from: a legal table, beliefs that some deal agrees with, and our cards as listed. */
  ghost predicate Start(w: Deal, st: State, owed: Owed, thoughts: seq<Card>, our: nat, owned: seq<Owned>) {
    && TableOk(w, st, owed) && Readable(st, thoughts, our) && Consistent(w, st, thoughts) && OthersSeen(st, thoughts, our)
    && OwnListed(st, thoughts, our, owned)
  }

  /** The deck of an arranged game. */
  ghost function StartDeck(st: State, thoughts: seq<Card>, our: nat, owned: seq<Owned>, ids: seq<Id>): (d: Deck)
    requires Readable(st, thoughts, our) && OwnListed(st, thoughts, our, owned) && |ids| == |Unknown(owned)|
    ensures |d| == |st.deck|
  {
    OwnedInRange(st, thoughts, our, owned);
    Write(WriteOwned(st.deck, owned), Unknown(owned), ids)
  }

  lemma OwnedInRange(st: State, thoughts: seq<Card>, our: nat, owned: seq<Owned>)
    requires Readable(st, thoughts, our) && OwnListed(st, thoughts, our, owned)
    ensures forall x | x in owned :: x.order in st.hands[our] && x.order < |st.deck|
    ensures forall o | o in Unknown(owned) :: o in st.hands[our] && o < |st.deck| && o < |thoughts| && Assumed(st, thoughts, our)[o].None?
    ensures Distinct(Unknown(owned)) && Distinct(st.hands[our])
  {
    assert st.hands[our] in st.hands;
    UnknownMembers(owned);
    hide Assumed;
  }

  /** Nothing is written on other cards. */
  lemma StartDeckElsewhere(st: State, thoughts: seq<Card>, our: nat, owned: seq<Owned>, ids: seq<Id>, o: Order)
    requires Readable(st, thoughts, our) && OwnListed(st, thoughts, our, owned) && |ids| == |Unknown(owned)|
    requires o < |st.deck| && o !in st.hands[our]
    ensures StartDeck(st, thoughts, our, owned, ids)[o] == st.deck[o]
  {
    OwnedInRange(st, thoughts, our, owned);
    hide Assumed;
    OwnedElsewhere(st.deck, owned, o);
    WriteElsewhere(WriteOwned(st.deck, owned), Unknown(owned), ids, o);
  }

  /** Our cards are what they are taken to be, or what the arrangement makes them. */
  lemma StartDeckOurs(st: State, thoughts: seq<Card>, our: nat, owned: seq<Owned>, ids: seq<Id>, o: Order)
    requires Readable(st, thoughts, our) && OwnListed(st, thoughts, our, owned) && |ids| == |Unknown(owned)| && o in st.hands[our]
    ensures o < |st.deck| && o < |thoughts| && forall x | x in Unknown(owned) :: x < |thoughts|
    ensures StartDeck(st, thoughts, our, owned, ids)[o] == Write(Assumed(st, thoughts, our), Unknown(owned), ids)[o]
  {
    OwnedInRange(st, thoughts, our, owned);
    assert st.hands[our] in st.hands;
    var known := Assumed(st, thoughts, our);
    hide Assumed;
    UnknownMembers(owned);
    assert Names(owned, o);
    var x :| x in owned && x.order == o;
    if x.id.Some? {
      OwnedWritten(st.deck, owned, x);
    }
    WriteAgrees(WriteOwned(st.deck, owned), known, Unknown(owned), ids, o);
  }

  /** Copies in hands once our cards are written. */
  lemma StartCopies(st: State, thoughts: seq<Card>, our: nat, owned: seq<Owned>, ids: seq<Id>, id: Id)
    requires Readable(st, thoughts, our) && OwnListed(st, thoughts, our, owned) && |ids| == |Unknown(owned)| && OthersSeen(st, thoughts, our)
    ensures CopiesIn(StartDeck(st, thoughts, our, owned, ids), st.hands, id)
            == CopiesIn(Assumed(st, thoughts, our), st.hands, id) + multiset(ids)[id]
  {
    var deck, known := StartDeck(st, thoughts, our, owned, ids), Assumed(st, thoughts, our);
    OwnedInRange(st, thoughts, our, owned);
    var filled := Write(known, Unknown(owned), ids);
    forall o | o in st.hands[our]
      ensures o < |st.deck| && o < |thoughts| && deck[o] == filled[o]
    {
      StartDeckOurs(st, thoughts, our, owned, ids, o);
    }
    forall p | 0 <= p < |st.hands| && p != our
      ensures SameOn(deck, known, st.hands[p])
    {
      forall o | o in st.hands[p]
        ensures o < |deck| && o < |known| && deck[o] == known[o]
      {
        OthersApart(st, our, p, o);
        assert st.hands[p] in st.hands;
        StartDeckElsewhere(st, thoughts, our, owned, ids, o);
      }
    }
    hide StartDeck, Assumed, OwnListed, Readable, OthersSeen, Unknown;
    OthersSame(st, our, deck, known, id);
    CopiesSame(deck, filled, st.hands[our], id);
    CopiesWritten(known, st.hands[our], Unknown(owned), ids, id);
    SplitHands(deck, st, our, id);
    SplitHands(known, st, our, id);
  }

  lemma UnseenList(st: State, known: Deck)
    requires st.WellFormed()
    ensures EndgameArrangements.Listing(AllUnseen(st, known)) && RemainingOk(AllUnseen(st, known))
    ensures forall r | r in AllUnseen(st, known) :: st.ValidId(r.id)
  {
    UnseenSound(st, known, st.NumSuits() * MAX_RANK);
    UnseenDistinct(st, known, st.NumSuits() * MAX_RANK);
  }

  /** The dealt identities and those that are left are the unseen ones. */
  ghost predicate DealtTo(st: State, thoughts: seq<Card>, our: nat, owned: seq<Owned>, possible: Belief, ids: seq<Id>, left: seq<Remaining>)
    requires Readable(st, thoughts, our)
  {
    && |ids| == |Unknown(owned)| && EndgameArrangements.Listing(AllUnseen(st, Assumed(st, thoughts, our)))
    && DealOut(AllUnseen(st, Assumed(st, thoughts, our)), possible, ids) == Some(left)
  }

  lemma DealtFacts(st: State, thoughts: seq<Card>, our: nat, owned: seq<Owned>, possible: Belief, ids: seq<Id>, left: seq<Remaining>, id: Id)
    requires Readable(st, thoughts, our) && DealtTo(st, thoughts, our, owned, possible, ids, left) && st.ValidId(id)
    ensures Unseen(st, Assumed(st, thoughts, our), id) >= 0 ==>
              Missing(left, id) + multiset(ids)[id] == Unseen(st, Assumed(st, thoughts, our), id)
    ensures RemainingOk(left)
    ensures (forall r | r in left :: st.ValidId(r.id)) && (forall i | i in ids :: st.ValidId(i))
  {
    var start := AllUnseen(st, Assumed(st, thoughts, our));
    UnseenList(st, Assumed(st, thoughts, our));
    UnseenMissing(st, Assumed(st, thoughts, our), st.NumSuits() * MAX_RANK, id);
    assert IndexOfId(id) < st.NumSuits() * MAX_RANK;
    hide Assumed, AllUnseen, Readable, Unseen;
    DealtCopies(start, possible, ids, id);
  }

  /** The position after our cards have been written. */
  ghost function StartPos(st: State, thoughts: seq<Card>, our: nat, owned: seq<Owned>, ids: seq<Id>, turn: nat, left: seq<Remaining>): Pos
    requires Readable(st, thoughts, our) && OwnListed(st, thoughts, our, owned) && |ids| == |Unknown(owned)|
  {
    Pos(st.(deck := StartDeck(st, thoughts, our, owned, ids)), turn, left)
  }

  lemma NoneExtra(pos: Pos, st: State)
    requires st.WellFormed() && pos.st == st.(deck := pos.st.deck)
    requires forall id | st.ValidId(id) :: CopiesIn(pos.st.deck, pos.st.hands, id) + Missing(pos.remaining, id) + st.BaseCount(id) == st.CardCount(id)
    ensures pos.st.WellFormed() && NoExtraCopies(pos)
  {
    hide CopiesIn, Missing;
    assert forall id :: pos.st.ValidId(id) == st.ValidId(id);
    assert forall id | st.ValidId(id) :: pos.st.BaseCount(id) == st.BaseCount(id) && pos.st.CardCount(id) == st.CardCount(id);
  }

  lemma StartNoExtra(w: Deal, st: State, owed: Owed, thoughts: seq<Card>, our: nat, owned: seq<Owned>, possible: Belief, ids: seq<Id>,
                     left: seq<Remaining>, turn: nat)
    requires Start(w, st, owed, thoughts, our, owned) && DealtTo(st, thoughts, our, owned, possible, ids, left)
    ensures StartPos(st, thoughts, our, owned, ids, turn, left).st.WellFormed()
    ensures NoExtraCopies(StartPos(st, thoughts, our, owned, ids, turn, left))
  {
    var pos := StartPos(st, thoughts, our, owned, ids, turn, left);
    forall id | st.ValidId(id)
      ensures CopiesIn(pos.st.deck, pos.st.hands, id) + Missing(left, id) + st.BaseCount(id) == st.CardCount(id)
    {
      StartCopies(st, thoughts, our, owned, ids, id);
      UnseenNotNegative(w, st, thoughts, our, id);
      DealtFacts(st, thoughts, our, owned, possible, ids, left, id);
      hide Assumed, StartDeck, TableOk, Consistent, OwnListed, OthersSeen, DealtTo, Readable, CopiesIn, Missing;
    }
    hide Assumed, StartDeck, TableOk, Consistent, OwnListed, OthersSeen, DealtTo, Readable, CopiesIn, Missing, Start;
    NoneExtra(pos, st);
  }

  /** Every copy of a rank above a cap is discarded, so none is left anywhere. */
  lemma CappedAreGone(pos: Pos, capped: State)
    requires pos.st.WellFormed() && NoExtraCopies(pos) && pos.st == capped.(deck := pos.st.deck)
    requires capped.WellFormed() && MaxRanksLaw(capped)
    ensures NoDeadRanks(pos)
  {
    hide CopiesIn, Missing;
    forall s | 0 <= s < pos.st.NumSuits() && pos.st.maxRanks[s] < MAX_RANK
      ensures CopiesIn(pos.st.deck, pos.st.hands, Id(s, pos.st.maxRanks[s] + 1)) + Missing(pos.remaining, Id(s, pos.st.maxRanks[s] + 1)) == 0
    {
      var id := Id(s, pos.st.maxRanks[s] + 1);
      assert pos.st.ValidId(id);
      assert pos.st.BaseCount(id) >= pos.st.CardCount(id);
    }
  }

  lemma StartListed(w: Deal, st: State, owed: Owed, thoughts: seq<Card>, our: nat, owned: seq<Owned>, possible: Belief, ids: seq<Id>,
                    left: seq<Remaining>, turn: nat)
    requires Start(w, st, owed, thoughts, our, owned) && DealtTo(st, thoughts, our, owned, possible, ids, left)
    ensures Listed(StartPos(st, thoughts, our, owned, ids, turn, left))
  {
    var pos := StartPos(st, thoughts, our, owned, ids, turn, left);
    SomeValid(st, thoughts, our, owned, possible, ids, left);
    forall o | 0 <= o < |pos.st.deck| && pos.st.deck[o].Some?
      ensures st.ValidId(pos.st.deck[o].value)
    {
      if o in st.hands[our] {
        StartDeckOurs(st, thoughts, our, owned, ids, o);
        OwnValid(st, thoughts, our, owned, ids, o);
      } else {
        StartDeckElsewhere(st, thoughts, our, owned, ids, o);
        assert st.ValidId(w[o]);
      }
    }
    assert forall id :: pos.st.ValidId(id) == st.ValidId(id);
  }

  lemma SomeValid(st: State, thoughts: seq<Card>, our: nat, owned: seq<Owned>, possible: Belief, ids: seq<Id>, left: seq<Remaining>)
    requires Readable(st, thoughts, our) && DealtTo(st, thoughts, our, owned, possible, ids, left)
    ensures RemainingOk(left) && (forall r | r in left :: st.ValidId(r.id)) && (forall i | i in ids :: st.ValidId(i))
  {
    var start := AllUnseen(st, Assumed(st, thoughts, our));
    UnseenList(st, Assumed(st, thoughts, our));
    hide Assumed, AllUnseen, Readable;
    DealtCopies(start, possible, ids, Id(0, 1));
  }

  lemma OwnValid(st: State, thoughts: seq<Card>, our: nat, owned: seq<Owned>, ids: seq<Id>, o: Order)
    requires Readable(st, thoughts, our) && OwnListed(st, thoughts, our, owned) && |ids| == |Unknown(owned)| && o in st.hands[our]
    requires forall i | i in ids :: st.ValidId(i)
    requires o < |thoughts| && forall x | x in Unknown(owned) :: x < |thoughts|
    ensures Write(Assumed(st, thoughts, our), Unknown(owned), ids)[o].Some? ==>
              st.ValidId(Write(Assumed(st, thoughts, our), Unknown(owned), ids)[o].value)
  {
    var known := Assumed(st, thoughts, our);
    assert known[o].Some? ==> InferredIdentity(thoughts[o]) == known[o];
    hide Assumed;
    WriteFrom(known, Unknown(owned), ids, o);
  }

  lemma {:induction false} WriteFrom(deck: Deck, orders: seq<Order>, ids: seq<Id>, o: Order)
    requires |orders| == |ids| && (forall x | x in orders :: x < |deck|) && o < |deck|
    ensures Write(deck, orders, ids)[o] == deck[o] || exists i :: i in ids && Write(deck, orders, ids)[o] == Some(i)
    decreases |orders|
  {
    if orders != [] {
      assert orders[0] in orders && (forall x | x in orders[1..] :: x in orders) && ids[0] in ids && forall i | i in ids[1..] :: i in ids;
      WriteFrom(deck[orders[0] := Some(ids[0])], orders[1..], ids[1..], o);
    }
  }

  lemma StartShaped(w: Deal, st: State, owed: Owed, pos: Pos)
    requires TableOk(w, st, owed) && pos.st == st.(deck := pos.st.deck) && |pos.st.deck| == |st.deck| && pos.turn < |st.hands|
    requires RemainingOk(pos.remaining)
    ensures Shaped(pos)
  {
    hide Conserved, MaxRanksLaw;
    forall h, o | h in st.hands && o in h
      ensures o < |st.deck|
    {
      HandOrdersMember(st, o);
    }
  }

  lemma StartClocked(w: Deal, st: State, owed: Owed, pos: Pos)
    requires TableOk(w, st, owed) && pos.st == st.(deck := pos.st.deck) && |pos.st.deck| == |st.deck|
    ensures pos.st.WellFormed() && Clock(pos.st) && StacksCapped(pos.st)
  {
    StacksBelowMax(w, st);
    hide Conserved;
  }

  /** Every position that `solve_game` makes out of a legal table is consistent: the hypotheses of all results on the search hold. */
  lemma StartIsSane(w: Deal, st: State, owed: Owed, thoughts: seq<Card>, our: nat, owned: seq<Owned>, possible: Belief, ids: seq<Id>,
                    left: seq<Remaining>, turn: nat)
    requires Start(w, st, owed, thoughts, our, owned) && DealtTo(st, thoughts, our, owned, possible, ids, left) && turn < |st.hands|
    ensures Sane(StartPos(st, thoughts, our, owned, ids, turn, left))
  {
    var pos := StartPos(st, thoughts, our, owned, ids, turn, left);
    StartListed(w, st, owed, thoughts, our, owned, possible, ids, left, turn);
    StartNoExtra(w, st, owed, thoughts, our, owned, possible, ids, left, turn);
    SomeValid(st, thoughts, our, owned, possible, ids, left);
    assert TableOk(w, st, owed) && MaxRanksLaw(st);
    hide StartDeck, TableOk, HandOrders, Assumed, Conserved, Consistent, OwnListed, OthersSeen, DealtTo, NoExtraCopies, NoDeadRanks, Listed, Shaped, MaxRanksLaw, Clock, StacksCapped;
    StartShaped(w, st, owed, pos);
    StartClocked(w, st, owed, pos);
    CappedAreGone(pos, st);
  }

  /** `possible_actions` is called with the list from before the arrangement: that list fits only if no card was arranged. */
  lemma OriginalListFits(w: Deal, st: State, owed: Owed, thoughts: seq<Card>, our: nat, owned: seq<Owned>, possible: Belief, ids: seq<Id>,
                         left: seq<Remaining>, turn: nat)
    requires Start(w, st, owed, thoughts, our, owned) && DealtTo(st, thoughts, our, owned, possible, ids, left) && turn < |st.hands|
    ensures Sane(StartPos(st, thoughts, our, owned, ids, turn, AllUnseen(st, Assumed(st, thoughts, our)))) <==> ids == []
  {
    var start := AllUnseen(st, Assumed(st, thoughts, our));
    if ids == [] {
      assert left == start;
      StartIsSane(w, st, owed, thoughts, our, owned, possible, ids, left, turn);
    } else {
      OriginalListOvercounts(w, st, owed, thoughts, our, owned, possible, ids, left, turn);
    }
  }

  lemma OriginalListOvercounts(w: Deal, st: State, owed: Owed, thoughts: seq<Card>, our: nat, owned: seq<Owned>, possible: Belief, ids: seq<Id>,
                               left: seq<Remaining>, turn: nat)
    requires Start(w, st, owed, thoughts, our, owned) && DealtTo(st, thoughts, our, owned, possible, ids, left) && ids != []
    ensures var pos := StartPos(st, thoughts, our, owned, ids, turn, AllUnseen(st, Assumed(st, thoughts, our)));
            pos.st.WellFormed() && !NoExtraCopies(pos)
  {
    var id := ids[0];
    var pos := StartPos(st, thoughts, our, owned, ids, turn, AllUnseen(st, Assumed(st, thoughts, our)));
    SomeValid(st, thoughts, our, owned, possible, ids, left);
    StartCopies(st, thoughts, our, owned, ids, id);
    UnseenNotNegative(w, st, thoughts, our, id);
    UnseenMissing(st, Assumed(st, thoughts, our), st.NumSuits() * MAX_RANK, id);
    hide StartDeck, Assumed, TableOk, Consistent, OwnListed, OthersSeen, DealtTo, Readable, CopiesIn, Missing, Start;
    assert IndexOfId(id) < st.NumSuits() * MAX_RANK && id in multiset(ids);
    Overcounted(pos, st, id);
  }

  lemma Overcounted(pos: Pos, st: State, id: Id)
    requires st.WellFormed() && st.ValidId(id) && pos.st == st.(deck := pos.st.deck)
    requires CopiesIn(pos.st.deck, pos.st.hands, id) + Missing(pos.remaining, id) + st.BaseCount(id) > st.CardCount(id)
    ensures pos.st.WellFormed() && !NoExtraCopies(pos)
  {
    hide CopiesIn, Missing;
    assert pos.st.ValidId(id) && pos.st.BaseCount(id) == st.BaseCount(id) && pos.st.CardCount(id) == st.CardCount(id);
  }

  /** If every other player's card is identified, every card in hand is once ours are written. */
  lemma StartIdentified(st: State, thoughts: seq<Card>, our: nat, owned: seq<Owned>, ids: seq<Id>)
    requires Readable(st, thoughts, our) && OwnListed(st, thoughts, our, owned) && |ids| == |Unknown(owned)|
    requires OthersSeen(st, thoughts, our) && OthersIdentified(st, thoughts, our)
    ensures forall h, o | h in st.hands && o in h :: o < |st.deck| && StartDeck(st, thoughts, our, owned, ids)[o].Some?
  {
    forall p, o | 0 <= p < |st.hands| && o in st.hands[p]
      ensures o < |st.deck| && StartDeck(st, thoughts, our, owned, ids)[o].Some?
    {
      assert st.hands[p] in st.hands;
      if p == our {
        StartDeckOurs(st, thoughts, our, owned, ids, o);
        OwnFilled(st, thoughts, our, owned, ids, o);
      } else {
        OthersApart(st, our, p, o);
        StartDeckElsewhere(st, thoughts, our, owned, ids, o);
      }
    }
  }

  lemma OwnFilled(st: State, thoughts: seq<Card>, our: nat, owned: seq<Owned>, ids: seq<Id>, o: Order)
    requires Readable(st, thoughts, our) && OwnListed(st, thoughts, our, owned) && |ids| == |Unknown(owned)| && o in st.hands[our]
    requires o < |thoughts| && forall x | x in Unknown(owned) :: x < |thoughts|
    ensures Write(Assumed(st, thoughts, our), Unknown(owned), ids)[o].Some?
  {
    var known := Assumed(st, thoughts, our);
    hide Assumed;
    UnknownMembers(owned);
    assert Names(owned, o);
    var x :| x in owned && x.order == o;
    WriteFills(known, Unknown(owned), ids, o);
  }

  lemma {:induction false} WriteFills(deck: Deck, orders: seq<Order>, ids: seq<Id>, o: Order)
    requires |orders| == |ids| && (forall x | x in orders :: x < |deck|) && o < |deck| && (o in orders || deck[o].Some?)
    ensures Write(deck, orders, ids)[o].Some?
    decreases |orders|
  {
    if orders != [] {
      assert orders == [orders[0]] + orders[1..] && orders[0] in orders && forall x | x in orders[1..] :: x in orders;
      WriteFills(deck[orders[0] := Some(ids[0])], orders[1..], ids[1..], o);
    }
  }

  /** A legal table, and beliefs that a deal agrees with and that identify every other player's cards. */
  ghost predicate Opened(w: Deal, st: State, owed: Owed, thoughts: seq<Card>, our: nat) {
    && TableOk(w, st, owed) && Readable(st, thoughts, our) && Consistent(w, st, thoughts)
    && OthersSeen(st, thoughts, our) && OthersIdentified(st, thoughts, our)
  }

  lemma OpeningFits(w: Deal, st: State, owed: Owed, thoughts: seq<Card>, our: nat, owned: seq<Owned>)
    requires Opened(w, st, owed, thoughts, our) && OwnListed(st, thoughts, our, owned)
    ensures Readable(st, thoughts, our) && OthersIdentified(st, thoughts, our) && Start(w, st, owed, thoughts, our, owned)
    ensures EndgameArrangements.Listing(AllUnseen(st, Assumed(st, thoughts, our)))
    ensures Total(AllUnseen(st, Assumed(st, thoughts, our))) == st.cardsLeft + |Unknown(owned)|
  {
    UnseenList(st, Assumed(st, thoughts, our));
    MassFits(w, st, thoughts, our, owned);
  }

  lemma ArrangedStart(w: Deal, st: State, owed: Owed, thoughts: seq<Card>, our: nat, owned: seq<Owned>, possible: Belief, n: Arrangement, turn: nat)
    requires Readable(st, thoughts, our) && OthersIdentified(st, thoughts, our)
    requires Start(w, st, owed, thoughts, our, owned) && turn < |st.hands| && |n.ids| == |Unknown(owned)|
    requires EndgameArrangements.Listing(AllUnseen(st, Assumed(st, thoughts, our)))
    requires Deals(AllUnseen(st, Assumed(st, thoughts, our)), possible, n)
    ensures DealtTo(st, thoughts, our, owned, possible, n.ids, n.remaining)
    ensures Sane(StartPos(st, thoughts, our, owned, n.ids, turn, n.remaining))
    ensures forall h, o | h in st.hands && o in h :: o < |st.deck| && StartDeck(st, thoughts, our, owned, n.ids)[o].Some?
  {
    hide Assumed, AllUnseen, TableOk, Consistent, OwnListed, OthersSeen;
    StartIdentified(st, thoughts, our, owned, n.ids);
    StartIsSane(w, st, owed, thoughts, our, owned, possible, n.ids, n.remaining, turn);
  }

  /** The opening of `solve_game`, without the Monte Carlo selection: the arrangements of our unknown cards carry all
      the probability, and each of them makes a consistent position. */
  method ArrangedGames(ghost w: Deal, st: State, ghost owed: Owed, thoughts: seq<Card>, our: nat, possible: Belief, turn: nat)
      returns (owned: seq<Owned>, ns: seq<Arrangement>)
    requires Opened(w, st, owed, thoughts, our) && turn < |st.hands|
    ensures Start(w, st, owed, thoughts, our, owned) && Usable(ns) && (ns != [] ==> ProbSum(ns) == 1.0)
    ensures forall n | n in ns ::
              && Total(n.remaining) == st.cardsLeft && DealtTo(st, thoughts, our, owned, possible, n.ids, n.remaining)
              && Sane(StartPos(st, thoughts, our, owned, n.ids, turn, n.remaining))
              && forall h, o | h in st.hands && o in h :: o < |st.deck| && StartDeck(st, thoughts, our, owned, n.ids)[o].Some?
  {
    var remaining;
    remaining, owned := FindRemainingIdentities(st, thoughts, our);
    OpeningFits(w, st, owed, thoughts, our, owned);
    hide Assumed, AllUnseen, Opened, Start, Deals;
    ns := Arrangements(remaining, |Unknown(owned)|, possible, st.cardsLeft);
    hide Sane, DealtTo, StartPos, StartDeck, OthersIdentified, Readable, OwnListed, EndgameArrangements.Listing, EndgameArrangements.DealOut;
    forall n | n in ns
      ensures Readable(st, thoughts, our) && OwnListed(st, thoughts, our, owned) && |n.ids| == |Unknown(owned)|
      ensures DealtTo(st, thoughts, our, owned, possible, n.ids, n.remaining)
      ensures Sane(StartPos(st, thoughts, our, owned, n.ids, turn, n.remaining))
      ensures forall h, o | h in st.hands && o in h :: o < |st.deck| && StartDeck(st, thoughts, our, owned, n.ids)[o].Some?
    {
      ArrangedStart(w, st, owed, thoughts, our, owned, possible, n, turn);
    }
  }
}
