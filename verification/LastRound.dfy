// The last-round rule of `card_elim`: once the deck is empty, only holders of an identity can have it.
module LastRound {
  import opened Cards
  import opened GameState
  import opened Beliefs
  import opened Elimination
  import opened NakedSubsets

  /** `state.deck[o].matches(id) || getThoughts(o).matches(id)`. */
  predicate KnownAs(known: Option<Id>, card: Card, id: Id) {
    known == Some(id) || card.Matches(id)
  }

  function KnownInHand(st: State, thoughts: map<Order, Card>, hand: seq<Order>, id: Id): set<Order> {
    set o | o in hand && o in thoughts && o < |st.deck| && KnownAs(st.deck[o], thoughts[o], id)
  }

  /** The known copies of id in the first i hands. */
  ghost function KnownUpTo(st: State, thoughts: map<Order, Card>, id: Id, i: nat): set<Order> {
    set e | e in Entries(st) && e.player < i && e.order in thoughts && e.order < |st.deck|
            && KnownAs(st.deck[e.order], thoughts[e.order], id) :: e.order
  }

  lemma KnownUpToStep(st: State, thoughts: map<Order, Card>, id: Id, i: nat)
    requires OrdersDistinct(Entries(st)) && i < |st.hands|
    ensures |KnownUpTo(st, thoughts, id, i + 1)|
            == |KnownUpTo(st, thoughts, id, i)| + |KnownInHand(st, thoughts, st.hands[i], id)|
  {
    var a, b := KnownUpTo(st, thoughts, id, i), KnownInHand(st, thoughts, st.hands[i], id);
    forall o | o in b
      ensures o in KnownUpTo(st, thoughts, id, i + 1) && o !in a
    {
      assert Entry(o, i) in Entries(st);
    }
    assert KnownUpTo(st, thoughts, id, i + 1) == a + b;
    assert a * b == {};
  }

  /** No consistent deal gives player i a copy of id. */
  ghost predicate HandFree(st: State, start: seq<Card>, i: nat, id: Id)
    requires st.WellFormed() && i < |st.hands|
  {
    forall w, o | Consistent(w, st, start) && o in st.hands[i] :: o < |w| && w[o] != id
  }

  lemma InHandOrders(st: State, i: nat, o: Order)
    requires i < |st.hands| && o in st.hands[i]
    ensures o in HandOrders(st)
  {
    assert Entry(o, i) in Entries(st);
  }

  lemma KnownAsRight(w: Deal, st: State, start: seq<Card>, v: Work, o: Order, id: Id)
    requires Ok(st, start, v) && Consistent(w, st, start) && Agrees(w, st, v) && o in HandOrders(st)
    requires KnownAs(st.deck[o], v.thoughts[o], id)
    ensures o < |w| && w[o] == id
  {
    assert AgreesWithCard(w[o], st.deck[o], start[o]);
    if v.thoughts[o].Matches(id) {
      IdentityRight(w[o], st.deck[o], v.thoughts[o], false);
    }
  }

  /** All copies of id are known and none is in this hand. */
  lemma AllFoundLicence(st: State, start: seq<Card>, v: Work, i: nat, id: Id)
    requires Ok(st, start, v) && Sound(st, start, v) && st.ValidId(id) && i < |st.hands|
    requires st.BaseCount(id) + |KnownUpTo(st, v.thoughts, id, |st.hands|)| == st.CardCount(id)
    requires KnownInHand(st, v.thoughts, st.hands[i], id) == {}
    ensures HandFree(st, start, i, id)
  {
    forall w, o | Consistent(w, st, start) && o in st.hands[i]
      ensures o < |w| && w[o] != id
    {
      assert Agrees(w, st, v);
      InHandOrders(st, i, o);
      AllFound(w, st, start, v, id);
      assert o !in KnownInHand(st, v.thoughts, st.hands[i], id);
    }
  }

  lemma AllFound(w: Deal, st: State, start: seq<Card>, v: Work, id: Id)
    requires Ok(st, start, v) && Consistent(w, st, start) && Agrees(w, st, v) && st.ValidId(id)
    requires st.BaseCount(id) + |KnownUpTo(st, v.thoughts, id, |st.hands|)| == st.CardCount(id)
    ensures forall o | o in HandOrders(st) && w[o] == id :: KnownAs(st.deck[o], v.thoughts[o], id)
  {
    var s := KnownUpTo(st, v.thoughts, id, |st.hands|);
    forall o | o in s
      ensures o in Held(w, st, id)
    {
      KnownAsRight(w, st, start, v, o, id);
    }
    SaturationOne(w, st, id, s);
    forall o | o in HandOrders(st) && w[o] == id
      ensures KnownAs(st.deck[o], v.thoughts[o], id)
    {
      assert o in Held(w, st, id);
    }
  }

  lemma HandDistinct(st: State, start: seq<Card>, v: Work, i: nat)
    requires Ok(st, start, v) && i < |st.hands|
    ensures forall j, k | 0 <= j < k < |st.hands[i]| :: st.hands[i][j] != st.hands[i][k]
  {
    HandDistinctFrom(st.hands, 0, i);
  }

  lemma {:induction false} HandDistinctFrom(hands: seq<seq<Order>>, p: nat, i: nat)
    requires p <= i < |hands| && OrdersDistinct(EntriesFrom(hands, p))
    ensures forall j, k | 0 <= j < k < |hands[i]| :: hands[i][j] != hands[i][k]
    decreases i - p
  {
    var (a, b) := (HandEntries(hands[p], p), EntriesFrom(hands, p + 1));
    assert EntriesFrom(hands, p) == a + b;
    if p < i {
      forall j, k | 0 <= j < k < |b|
        ensures b[j].order != b[k].order
      {
        assert (a + b)[|a| + j] == b[j] && (a + b)[|a| + k] == b[k];
      }
      HandDistinctFrom(hands, p + 1, i);
    } else {
      forall j, k | 0 <= j < k < |hands[i]|
        ensures hands[i][j] != hands[i][k]
      {
        assert (a + b)[j] == a[j] && (a + b)[k] == a[k];
      }
    }
  }

  /** No card is in two hands. */
  ghost predicate Apart(hands: seq<seq<Order>>) {
    forall i, j, o | 0 <= i < |hands| && 0 <= j < |hands| && o in hands[i] && o in hands[j] :: i == j
  }

  lemma HandsApart(st: State, start: seq<Card>, v: Work)
    requires Ok(st, start, v)
    ensures Apart(st.hands)
  {
    OkBasics(st, start, v);
    forall i, j, o | 0 <= i < |st.hands| && 0 <= j < |st.hands| && o in st.hands[i] && o in st.hands[j]
      ensures i == j
    {
      assert Entry(o, i) in Entries(st) && Entry(o, j) in Entries(st);
    }
  }

  /** Some card of the hand has no known identity. */
  predicate HasUnknown(st: State, thoughts: map<Order, Card>, hand: seq<Order>)
    requires HandCovered(st, thoughts, hand)
  {
    exists o | o in hand :: KnownIdentity(st.deck[o], thoughts[o]) == None
  }

  /** Every card of this hand is known, and none is id. */
  lemma AllKnownLicence(st: State, start: seq<Card>, v: Work, i: nat, id: Id)
    requires Ok(st, start, v) && Sound(st, start, v) && i < |st.hands|
    requires KnownInHand(st, v.thoughts, st.hands[i], id) == {}
    requires HandCovered(st, v.thoughts, st.hands[i]) && !HasUnknown(st, v.thoughts, st.hands[i])
    ensures HandFree(st, start, i, id)
  {
    forall w, o | Consistent(w, st, start) && o in st.hands[i]
      ensures o < |w| && w[o] != id
    {
      assert Agrees(w, st, v);
      InHandOrders(st, i, o);
      KnownIdentityRight(w, st, start, v, o);
      assert o !in KnownInHand(st, v.thoughts, st.hands[i], id);
    }
  }

  // ----- Which hands lose an identity -----

  /** The player is known to hold id, or some copy of id is not accounted for and the player has an unknown card. */
  ghost predicate MayHold(st: State, thoughts: map<Order, Card>, i: nat, id: Id)
    requires st.WellFormed() && i < |st.hands| && st.ValidId(id)
  {
    || KnownInHand(st, thoughts, st.hands[i], id) != {}
    || (st.BaseCount(id) + |KnownUpTo(st, thoughts, id, |st.hands|)| != st.CardCount(id)
        && exists o :: o in st.hands[i] && o in thoughts && o < |st.deck| && KnownIdentity(st.deck[o], thoughts[o]) == None)
  }

  /** No card of the hand may be id. */
  ghost predicate GoneFrom(st: State, thoughts: map<Order, Card>, i: nat, id: Id)
    requires i < |st.hands|
  {
    forall o | o in st.hands[i] && o in thoughts :: id !in thoughts[o].possible
  }

  /** Hands that could not hold one of ids at v0 have lost it at v1. */
  ghost predicate HandsSpared(st: State, v0: Work, v1: Work, ids: seq<Id>)
    requires st.WellFormed()
  {
    forall id, i | id in ids && st.ValidId(id) && 0 <= i < |st.hands| && !MayHold(st, v0.thoughts, i, id) :: GoneFrom(st, v1.thoughts, i, id)
  }

  lemma SparedLicence(st: State, start: seq<Card>, v: Work, i: nat, id: Id)
    requires Ok(st, start, v) && Sound(st, start, v) && st.ValidId(id) && i < |st.hands| && !MayHold(st, v.thoughts, i, id)
    ensures HandFree(st, start, i, id) && KnownInHand(st, v.thoughts, st.hands[i], id) == {}
  {
    OkCoversHands(st, start, v);
    if st.BaseCount(id) + |KnownUpTo(st, v.thoughts, id, |st.hands|)| == st.CardCount(id) {
      AllFoundLicence(st, start, v, i, id);
    } else {
      AllKnownLicence(st, start, v, i, id);
    }
  }

  /** What is known of a card stays known while some deal is possible. */
  lemma StaysKnown(w: Deal, st: State, start: seq<Card>, v0: Work, v1: Work, o: Order)
    requires Ok(st, start, v0) && Ok(st, start, v1) && Refines(v0, v1) && o in HandOrders(st)
    requires Consistent(w, st, start) && Agrees(w, st, v0) && Agrees(w, st, v1)
    ensures KnownIdentity(st.deck[o], v0.thoughts[o]).Some? ==> KnownIdentity(st.deck[o], v1.thoughts[o]) == Some(w[o])
    ensures forall id | KnownAs(st.deck[o], v0.thoughts[o], id) :: KnownAs(st.deck[o], v1.thoughts[o], id)
  {
    assert AgreesWithCard(w[o], st.deck[o], start[o]);
    var (a, b) := (v0.thoughts[o], v1.thoughts[o]);
    if a.Identity(false).Some? {
      assert w[o] in b.possible;
      SubsetCardinality(b.possible, a.possible);
      if |a.possible| == 1 {
        SubsetCardinality({w[o]}, b.possible);
      }
      assert b.Identity(false).Some?;
      IdentityRight(w[o], st.deck[o], a, false);
      IdentityRight(w[o], st.deck[o], b, false);
    }
  }

  /** What is known of one card, from one working state to a later one. */
  ghost predicate KnowsMore(w: Deal, st: State, v0: Work, v1: Work, o: Order, id: Id)
    requires o < |st.deck| && o in v0.thoughts && o in v1.thoughts
  {
    && (KnownIdentity(st.deck[o], v0.thoughts[o]).Some? ==> KnownIdentity(st.deck[o], v1.thoughts[o]).Some?)
    && (KnownAs(st.deck[o], v0.thoughts[o], id) ==> KnownAs(st.deck[o], v1.thoughts[o], id))
    && (KnownAs(st.deck[o], v1.thoughts[o], id) ==> o < |w| && w[o] == id)
  }

  /** A hand that cannot hold id cannot do so later either, while some deal is possible. */
  lemma NeverHolds(st: State, start: seq<Card>, v0: Work, v1: Work, i: nat, id: Id)
    requires Ok(st, start, v0) && Sound(st, start, v0) && Ok(st, start, v1) && Sound(st, start, v1) && Refines(v0, v1)
    requires Feasible(st, start) && st.ValidId(id) && i < |st.hands| && !MayHold(st, v0.thoughts, i, id)
    ensures !MayHold(st, v1.thoughts, i, id)
  {
    var w: Deal :| Consistent(w, st, start);
    assert Agrees(w, st, v0) && Agrees(w, st, v1);
    SparedLicence(st, start, v0, i, id);
    forall o | o in HandOrders(st)
      ensures o < |st.deck| && o in v0.thoughts && o in v1.thoughts && KnowsMore(w, st, v0, v1, o, id)
    {
      OkCovers(st, start, v0, o);
      OkCovers(st, start, v1, o);
      StaysKnown(w, st, start, v0, v1, o);
      if KnownAs(st.deck[o], v1.thoughts[o], id) { KnownAsRight(w, st, start, v1, o, id); }
    }
    assert RespectsCounts(w, st);
    hide Ok, Sound, Agrees, Consistent, Refines;
    NeverHoldsIn(w, st, v0, v1, i, id);
  }

  lemma NeverHoldsIn(w: Deal, st: State, v0: Work, v1: Work, i: nat, id: Id)
    requires st.WellFormed() && RespectsCounts(w, st) && st.ValidId(id) && i < |st.hands| && !MayHold(st, v0.thoughts, i, id)
    requires forall o | o in HandOrders(st) :: o < |st.deck| && o in v0.thoughts && o in v1.thoughts && KnowsMore(w, st, v0, v1, o, id)
    requires forall o | o in st.hands[i] :: o < |w| && w[o] != id
    ensures !MayHold(st, v1.thoughts, i, id)
  {
    forall o | o in st.hands[i]
      ensures o in HandOrders(st) && KnowsMore(w, st, v0, v1, o, id)
    {
      InHandOrders(st, i, o);
    }
    assert KnownInHand(st, v1.thoughts, st.hands[i], id) == {};
    var (a, b) := (KnownUpTo(st, v0.thoughts, id, |st.hands|), KnownUpTo(st, v1.thoughts, id, |st.hands|));
    KnownGrows(w, st, v0, v1, id);
    hide KnownUpTo, Held, KnownAs, KnownIdentity;
    SubsetCardinality(a, b);
    SubsetCardinality(b, Held(w, st, id));
  }

  lemma KnownGrows(w: Deal, st: State, v0: Work, v1: Work, id: Id)
    requires forall o | o in HandOrders(st) :: o < |st.deck| && o in v0.thoughts && o in v1.thoughts && KnowsMore(w, st, v0, v1, o, id)
    ensures KnownUpTo(st, v0.thoughts, id, |st.hands|) <= KnownUpTo(st, v1.thoughts, id, |st.hands|) <= Held(w, st, id)
  {
    assert forall e | e in Entries(st) :: e.order in HandOrders(st);
    hide KnownAs, KnownIdentity;
  }

  /** What one identity's turn clears, added to what the others have cleared. */
  lemma SparedMore(st: State, start: seq<Card>, v0: Work, v1: Work, v2: Work, ids: seq<Id>, id: Id)
    requires Ok(st, start, v0) && Sound(st, start, v0) && Ok(st, start, v1) && Sound(st, start, v1)
    requires Refines(v0, v1) && Refines(v1, v2) && Feasible(st, start) && st.ValidId(id)
    requires st.WellFormed() && HandsSpared(st, v0, v1, ids) && HandsSpared(st, v1, v2, [id])
    ensures HandsSpared(st, v0, v2, ids + [id])
  {
    forall x, i | x in ids + [id] && st.ValidId(x) && 0 <= i < |st.hands| && !MayHold(st, v0.thoughts, i, x)
      ensures GoneFrom(st, v2.thoughts, i, x)
    {
      if x in ids {
        assert GoneFrom(st, v1.thoughts, i, x);
      } else {
        NeverHolds(st, start, v0, v1, i, x);
        assert x in [id];
      }
    }
  }

  lemma SparedStays(st: State, v0: Work, v1: Work, v2: Work, ids: seq<Id>)
    requires st.WellFormed() && HandsSpared(st, v0, v1, ids) && Refines(v1, v2)
    ensures HandsSpared(st, v0, v2, ids)
  {
    forall id, i | id in ids && st.ValidId(id) && 0 <= i < |st.hands| && !MayHold(st, v0.thoughts, i, id)
      ensures GoneFrom(st, v2.thoughts, i, id)
    {
      assert GoneFrom(st, v1.thoughts, i, id);
    }
  }

  /** From one state of the beliefs to a later one, every hand has lost every identity that it could not hold at first. */
  ghost predicate HandsCleared(st: State, before: map<Order, Card>, after: map<Order, Card>)
    requires st.WellFormed()
  {
    forall id, i | st.ValidId(id) && 0 <= i < |st.hands| && !MayHold(st, before, i, id) :: GoneFrom(st, after, i, id)
  }

  /** Trying the identities that are possible somewhere is enough. */
  lemma TriedAreAll(st: State, v0: Work, v1: Work, v2: Work, ids: seq<Id>)
    requires st.WellFormed() && HandsSpared(st, v0, v1, ids) && Refines(v0, v1) && Refines(v1, v2)
    requires forall o, i | o in v0.thoughts && i in v0.thoughts[o].possible :: i in ids
    ensures HandsCleared(st, v0.thoughts, v2.thoughts)
  {
    SparedStays(st, v0, v1, v2, ids);
    hide MayHold;
    forall id, i | st.ValidId(id) && 0 <= i < |st.hands| && !MayHold(st, v0.thoughts, i, id)
      ensures GoneFrom(st, v2.thoughts, i, id)
    {
      if id !in ids {
        assert forall o | o in v2.thoughts :: o in v0.thoughts && v2.thoughts[o].possible <= v0.thoughts[o].possible;
      }
    }
  }

  /** The body of the last-round perform_elim: as in update_map, but without the error check. */
  function EliminateQuietly(v: Work, o: Order, id: Id): (r: Work)
    requires o in v.thoughts
  {
    EliminateAt(v, o, id).(thrown := v.thrown)
  }

  /** The first k cards of the hand cannot be id any more, and the others are as they were. */
  ghost predicate HandDone(v0: Work, v1: Work, hand: seq<Order>, k: nat, id: Id)
    requires k <= |hand|
  {
    && v1.thoughts.Keys == v0.thoughts.Keys
    && (forall j | 0 <= j < k && hand[j] in v1.thoughts :: id !in v1.thoughts[hand[j]].possible)
    && (forall x | x in v1.thoughts && x !in hand[..k] :: v1.thoughts[x] == v0.thoughts[x])
  }

  lemma HandDoneNone(v: Work, hand: seq<Order>, id: Id)
    ensures HandDone(v, v, hand, 0, id)
  {
  }

  lemma HandDoneNext(v0: Work, v1: Work, hand: seq<Order>, k: nat, id: Id)
    requires k < |hand| && HandDone(v0, v1, hand, k, id) && hand[k] in v1.thoughts
    requires forall i, j | 0 <= i < j < |hand| :: hand[i] != hand[j]
    ensures v1.thoughts[hand[k]] == v0.thoughts[hand[k]]
    ensures HandDone(v0, EliminateQuietly(v1, hand[k], id), hand, k + 1, id)
    ensures id !in v1.thoughts[hand[k]].possible ==> HandDone(v0, v1, hand, k + 1, id)
  {
    var v2 := EliminateQuietly(v1, hand[k], id);
    assert hand[..k + 1] == hand[..k] + [hand[k]];
    assert hand[k] !in hand[..k];
    assert forall x | x in v2.thoughts && x != hand[k] :: v2.thoughts[x] == v1.thoughts[x];
    assert id !in v2.thoughts[hand[k]].possible;
    hide EliminateQuietly;
    forall j | 0 <= j < k && hand[j] in v2.thoughts
      ensures id !in v2.thoughts[hand[j]].possible
    {
      assert hand[j] != hand[k];
    }
  }

  lemma NotKnown(st: State, thoughts: map<Order, Card>, hand: seq<Order>, o: Order, id: Id)
    requires KnownInHand(st, thoughts, hand, id) == {} && o in hand && o in thoughts && o < |st.deck|
    ensures !KnownAs(st.deck[o], thoughts[o], id)
  {
    assert KnownAs(st.deck[o], thoughts[o], id) ==> o in KnownInHand(st, thoughts, hand, id);
  }

  /** A card of this hand that is not known to be id may lose it. */
  lemma HandCard(st: State, start: seq<Card>, v0: Work, v1: Work, i: nat, k: nat, id: Id)
    requires Ok(st, start, v0) && Ok(st, start, v1) && i < |st.hands| && k < |st.hands[i]| && HandDone(v0, v1, st.hands[i], k, id)
    requires forall a, b | 0 <= a < b < |st.hands[i]| :: st.hands[i][a] != st.hands[i][b]
    requires KnownInHand(st, v0.thoughts, st.hands[i], id) == {}
    ensures var o := st.hands[i][k];
            && o in v0.thoughts && o in v1.thoughts && o < |st.deck| && !KnownAs(st.deck[o], v1.thoughts[o], id)
            && v1.thoughts[o] == v0.thoughts[o]
            && HandDone(v0, EliminateQuietly(v1, o, id), st.hands[i], k + 1, id)
            && (id !in v1.thoughts[o].possible ==> HandDone(v0, v1, st.hands[i], k + 1, id))
  {
    var o := st.hands[i][k];
    assert o in st.hands[i];
    InHandOrders(st, i, o);
    OkCovers(st, start, v0, o);
    OkCovers(st, start, v1, o);
    hide Ok, HandDone, EliminateQuietly, KnownAs;
    HandDoneNext(v0, v1, st.hands[i], k, id);
    NotKnown(st, v0.thoughts, st.hands[i], o, id);
  }

  lemma HandDoneSame(v0: Work, v1: Work, v2: Work, hand: seq<Order>, id: Id)
    requires HandDone(v0, v1, hand, |hand|, id) && v2.thoughts == v1.thoughts
    ensures HandDone(v0, v2, hand, |hand|, id)
  {
  }

  /** The hands before position k that cannot hold id have lost it, and the others are as they were. */
  ghost predicate HandsDone(st: State, v0: Work, v1: Work, holders: set<nat>, k: nat, id: Id) {
    && k <= |st.hands| && v1.thoughts.Keys == v0.thoughts.Keys
    && (forall j | 0 <= j < k && j !in holders :: GoneFrom(st, v1.thoughts, j, id))
    && (forall j, o | k <= j < |st.hands| && o in st.hands[j] && o in v1.thoughts :: v1.thoughts[o] == v0.thoughts[o])
  }

  lemma HandsDoneNone(st: State, v: Work, holders: set<nat>, id: Id)
    ensures HandsDone(st, v, v, holders, 0, id)
  {
  }

  lemma HandsDoneStill(st: State, v0: Work, v1: Work, holders: set<nat>, k: nat, id: Id)
    requires HandsDone(st, v0, v1, holders, k, id) && k < |st.hands|
    ensures KnownInHand(st, v1.thoughts, st.hands[k], id) == KnownInHand(st, v0.thoughts, st.hands[k], id)
    ensures k in holders ==> HandsDone(st, v0, v1, holders, k + 1, id)
  {
  }

  lemma HandsDoneNext(st: State, v0: Work, v1: Work, v2: Work, holders: set<nat>, k: nat, id: Id)
    requires HandsDone(st, v0, v1, holders, k, id) && k < |st.hands| && Apart(st.hands)
    requires HandDone(v1, v2, st.hands[k], |st.hands[k]|, id)
    ensures HandsDone(st, v0, v2, holders, k + 1, id)
  {
    var hand := st.hands[k];
    assert hand[..|hand|] == hand;
    forall o | o in hand && o in v2.thoughts
      ensures id !in v2.thoughts[o].possible
    {
      var j :| 0 <= j < |hand| && hand[j] == o;
    }
    forall j, o | 0 <= j < |st.hands| && j != k && o in st.hands[j] && o in v2.thoughts
      ensures v2.thoughts[o] == v1.thoughts[o]
    {
      assert o !in hand;
    }
    forall j | 0 <= j < k && j !in holders
      ensures GoneFrom(st, v2.thoughts, j, id)
    {
      assert GoneFrom(st, v1.thoughts, j, id);
    }
  }

  lemma HandsDoneAll(st: State, v0: Work, v1: Work, holders: set<nat>, id: Id)
    requires st.WellFormed() && HandsDone(st, v0, v1, holders, |st.hands|, id) && st.ValidId(id)
    requires forall i | 0 <= i < |st.hands| :: i in holders <==> MayHold(st, v0.thoughts, i, id)
    ensures HandsSpared(st, v0, v1, [id])
  {
  }

  lemma QuietlySound(st: State, start: seq<Card>, v: Work, i: nat, o: Order, id: Id)
    requires Ok(st, start, v) && Sound(st, start, v)
    requires i < |st.hands| && HandFree(st, start, i, id) && o in st.hands[i] && o in v.thoughts
    ensures Ok(st, start, EliminateQuietly(v, o, id)) && Sound(st, start, EliminateQuietly(v, o, id))
  {
    var r := EliminateQuietly(v, o, id);
    QuietlyOk(st, start, v, o, id);
    hide Ok;
    forall w | Consistent(w, st, start)
      ensures Agrees(w, st, r)
    {
      assert Agrees(w, st, v);
      QuietlyAgrees(w, st, v, o, id);
    }
  }

  lemma QuietlySteps(v: Work, o: Order, id: Id, es: seq<Entry>)
    requires o in v.thoughts && id in v.thoughts[o].possible
    requires exists e :: e in es && e.order == o
    ensures Steps(v, EliminateQuietly(v, o, id), es) && Size(EliminateQuietly(v, o, id), es) < Size(v, es)
  {
    var r := EliminateQuietly(v, o, id);
    var e :| e in es && e.order == o;
    RefinesReflexive(v);
    assert r.thoughts[e.order].possible < v.thoughts[e.order].possible;
    SizeShrinks(v, r, es);
  }

  lemma QuietlyAgrees(w: Deal, st: State, v: Work, o: Order, id: Id)
    requires st.WellFormed() && Agrees(w, st, v) && o in v.thoughts && w[o] != id
    ensures Agrees(w, st, EliminateQuietly(v, o, id))
  {
    hide Held, Card.ResetInferences, HandOrders;
    var r := EliminateQuietly(v, o, id);
    forall i: Id, p: Order | IsCertain(r.certain, i, p)
      ensures p < |w| && w[p] == i
    {
      if !IsCertain(v.certain, i, p) {
        assert p == o && r.thoughts[o].possible == {i};
        assert w[o] in r.thoughts[o].possible;
      }
    }
  }

  lemma QuietlyFacts(v: Work, o: Order, id: Id)
    requires o in v.thoughts
    ensures var r := EliminateQuietly(v, o, id);
            && r.candidates == v.candidates && r.thoughts.Keys == v.thoughts.Keys
            && (forall p | p in v.thoughts :: SameFacts(r.thoughts[p], v.thoughts[p]))
            && (forall i: Id, p: Order | IsCertain(r.certain, i, p) :: IsCertain(v.certain, i, p) || p == o)
  {
  }

  lemma QuietlyOk(st: State, start: seq<Card>, v: Work, o: Order, id: Id)
    requires Ok(st, start, v) && o in v.thoughts
    ensures Ok(st, start, EliminateQuietly(v, o, id))
  {
    QuietlyFacts(v, o, id);
    hide EliminateQuietly, HandOrders, CandidatesOk, DistinctOrders, ThoughtsCover;
    var r := EliminateQuietly(v, o, id);
    forall i | i in r.certain
      ensures r.certain[i].Keys <= HandOrders(st)
    {
      forall p | p in r.certain[i]
        ensures p in HandOrders(st)
      {
        assert IsCertain(r.certain, i, p);
        if IsCertain(v.certain, i, p) { assert p in v.certain[i].Keys; }
      }
    }
  }

  /** Dropping resolved candidates. */
  lemma FilterCandidates(st: State, start: seq<Card>, v: Work, removals: set<Order>)
    requires Ok(st, start, v) && Sound(st, start, v)
    ensures var r := v.(candidates := Without(v.candidates, removals));
            Ok(st, start, r) && Sound(st, start, r) && Refines(v, r) && (removals == {} ==> r == v)
  {
    var r := v.(candidates := Without(v.candidates, removals));
    WithoutNothing(v.candidates);
    WithoutOk(st, v.candidates, removals);
    WithoutThins(v.candidates, removals);
    forall w | Consistent(w, st, start)
      ensures Agrees(w, st, r)
    {
      assert Agrees(w, st, v);
    }
  }
}
