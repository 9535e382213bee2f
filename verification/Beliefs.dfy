// What a player (or the table in common) believes about each card,
// and the deals that are consistent with those beliefs.
module Beliefs {
  import opened Cards
  import opened GameState

  datatype Status = NoStatus | Clued | Finessed | Bluffed | MaybeFinessed | MaybeBluffed | FinessedMaybeBluff
                  | ChopMoved | CalledToPlay | CalledToDiscard | GentlemansDiscarded

  /** src/basics/Card.js, without the flags that only conventions read. */
  datatype Card = Card(
    seen: Option<Id>,                 // suitIndex and rank, when this viewer can see them
    possible: set<Id>,
    inferred: set<Id>,
    oldPossible: Option<set<Id>>,
    oldInferred: Option<set<Id>>,
    rewindIds: Option<set<Id>>,
    infoLock: Option<set<Id>>,
    status: Status,
    lastStatus: Status,
    clued: bool,
    reset: bool,
    known: bool,
    hidden: bool)
  {
    /** `identity({ symmetric })`: what this viewer knows the card to be. */
    function Identity(symmetric: bool): Option<Id> {
      if |possible| == 1 then Some(TheOne(possible))
      else if seen.Some? && !symmetric then seen
      else if rewindIds.Some? && |rewindIds.value| == 1 && !symmetric then Some(TheOne(rewindIds.value))
      else None
    }

    predicate Matches(id: Id) { Identity(false) == Some(id) }

    function RevertStatus(): Card {
      this.(status := if clued then Status.Clued else lastStatus, lastStatus := NoStatus)
    }

    /** `reset_inferences`: possibilities are left alone, inferences start over from them. */
    function ResetInferences(): (c: Card)
      ensures c.reset && c.possible == possible && c.seen == seen && c.rewindIds == rewindIds && c.clued == clued
    {
      var brokeLock := infoLock.Some? && infoLock.value * possible == {};
      var c := this.(reset := true, known := false, infoLock := if brokeLock then None else infoLock);
      if status == Finessed then
        c.RevertStatus().(hidden := false,
                          inferred := if !brokeLock && infoLock.Some? then infoLock.value
                                      else if oldInferred.Some? then oldInferred.value * possible
                                      else possible)
      else if !brokeLock then
        var relocked := if infoLock.Some? then infoLock.value * possible else possible;
        c.(infoLock := Some(relocked), inferred := relocked)
      else
        c.(inferred := possible)
    }
  }

  /** The element of a singleton (`array[0]`). */
  function TheOne(s: set<Id>): (id: Id)
    requires |s| == 1
    ensures s == {id}
  {
    SingletonHasOne(s);
    var id :| id in s;
    id
  }

  lemma SingletonHasOne(s: set<Id>)
    requires |s| == 1
    ensures forall a, b | a in s && b in s :: a == b
    ensures exists a :: a in s && s == {a}
  {
    var a :| a in s;
    SubsetCardinality({a}, s);
  }

  // ----- Deals -----

  /** The held cards that the deal makes equal to id. */
  ghost function Held(w: Deal, st: State, id: Id): set<Order> {
    set o | o in HandOrders(st) && o < |w| && w[o] == id
  }

  ghost function HeldAmong(w: Deal, st: State, ids: set<Id>): set<Order> {
    set o | o in HandOrders(st) && o < |w| && w[o] in ids
  }

  /** The deal respects everything that can be seen on one card. */
  ghost predicate AgreesWithCard(id: Id, known: Option<Id>, card: Card) {
    && id in card.possible
    && (known.Some? ==> known.value == id)
    && (card.seen.Some? ==> card.seen.value == id)
    && (card.rewindIds.Some? && |card.rewindIds.value| == 1 ==> id in card.rewindIds.value)
  }

  /** Whatever a card is known to be, every agreeing deal makes it that. */
  lemma IdentityRight(id: Id, known: Option<Id>, card: Card, symmetric: bool)
    requires AgreesWithCard(id, known, card) && card.Identity(symmetric).Some?
    ensures card.Identity(symmetric).value == id
  {
    if |card.possible| != 1 && card.seen.None? {
      assert card.rewindIds.value == {TheOne(card.rewindIds.value)};
    }
  }

  /** A card is known to this viewer exactly if one identity agrees with what the viewer sees of it, and known to its holder
      exactly if one is possible. */
  lemma IdentityExact(card: Card, id: Id)
    requires AgreesWithCard(id, None, card)
    ensures card.Identity(false) == Some(id) <==> forall x | AgreesWithCard(x, None, card) :: x == id
    ensures card.Identity(true) == Some(id) <==> card.possible == {id}
  {
    if card.Identity(false) == Some(id) {
      forall x | AgreesWithCard(x, None, card)
        ensures x == id
      {
        IdentityRight(x, None, card, false);
      }
    } else if card.Identity(false).Some? {
      IdentityRight(id, None, card, false);
    } else {
      assert card.possible != {id};
      var x :| x in card.possible && x != id;
      assert AgreesWithCard(x, None, card);
    }
  }

  /** No identity occurs more often than the deck holds it. */
  ghost predicate RespectsCounts(w: Deal, st: State)
    requires st.WellFormed()
  {
    forall id | st.ValidId(id) :: |Held(w, st, id)| + st.BaseCount(id) <= st.CardCount(id)
  }

  ghost predicate ThoughtsCover(st: State, thoughts: seq<Card>) {
    forall o | o in HandOrders(st) :: o < |thoughts| && o < |st.deck|
  }

  /** A deal that this viewer cannot rule out. */
  ghost predicate Consistent(w: Deal, st: State, thoughts: seq<Card>)
    requires st.WellFormed()
  {
    && ThoughtsCover(st, thoughts)
    && RespectsCounts(w, st)
    && forall o | o in HandOrders(st) :: o < |w| && AgreesWithCard(w[o], st.deck[o], thoughts[o])
  }

  // ----- Counting -----

  /** `total_multiplicity`: copies of these identities that are on no stack. */
  function Multiplicity(st: State, ids: seq<Id>): int
    requires st.WellFormed()
  {
    if ids == [] then 0 else st.CardCount(ids[0]) - st.BaseCount(ids[0]) + Multiplicity(st, ids[1..])
  }

  /** Hands hold at most the free copies of a list of distinct identities. */
  lemma {:induction false} HeldAmongBound(w: Deal, st: State, ids: seq<Id>)
    requires st.WellFormed() && RespectsCounts(w, st)
    requires forall id | id in ids :: st.ValidId(id)
    ensures |HeldAmong(w, st, set id | id in ids)| <= Multiplicity(st, ids)
  {
    var all := set id | id in ids;
    if ids == [] {
      assert HeldAmong(w, st, all) == {};
    } else {
      var rest := set id | id in ids[1..];
      HeldAmongBound(w, st, ids[1..]);
      var a, b := Held(w, st, ids[0]), HeldAmong(w, st, rest);
      assert HeldAmong(w, st, all) == a + b by {
        assert ids == [ids[0]] + ids[1..];
      }
      assert |a + b| <= |a| + |b| by { assert |a + b| == |a| + |b| - |a * b|; }
    }
  }

  /** The naked-subset argument: if held cards known to lie in ids use up every free copy of ids,
      then no other held card is one of ids. */
  lemma Saturation(w: Deal, st: State, ids: set<Id>, used: set<Order>)
    requires st.WellFormed() && RespectsCounts(w, st)
    requires forall id | id in ids :: st.ValidId(id)
    requires used <= HeldAmong(w, st, ids)
    requires |used| >= Multiplicity(st, ArrayOf(ids, st.NumSuits()))
    ensures forall o | o in HandOrders(st) && o < |w| && w[o] in ids :: o in used
  {
    var a := ArrayOf(ids, st.NumSuits());
    ArrayOfIsExact(ids, st.NumSuits());
    assert (set id | id in a) == ids;
    HeldAmongBound(w, st, a);
    SubsetCardinality(used, HeldAmong(w, st, ids));
    assert used == HeldAmong(w, st, ids);
  }

  /** The single-identity case, used by basic_elim and by perform_elim's groups. */
  lemma SaturationOne(w: Deal, st: State, id: Id, used: set<Order>)
    requires st.WellFormed() && RespectsCounts(w, st) && st.ValidId(id)
    requires used <= Held(w, st, id)
    requires |used| + st.BaseCount(id) >= st.CardCount(id)
    ensures Held(w, st, id) == used
    ensures |used| + st.BaseCount(id) == st.CardCount(id)
  {
    SubsetCardinality(used, Held(w, st, id));
  }

  /** src/basics/Player.js, without what only conventions read. playerIndex is -1 for common knowledge. */
  datatype Player = Player(
    playerIndex: int,
    thoughts: seq<Card>,
    allPossible: set<Id>,
    allInferred: set<Id>)
}
