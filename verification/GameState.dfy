// The shared table state of src/basics/State.js and its query functions.
module GameState {
  import opened Cards

  datatype State = State(
    hands: seq<seq<Order>>,
    deck: seq<Option<Id>>,           // what is known of each drawn order
    playStacks: seq<nat>,
    discardStacks: seq<seq<nat>>,
    maxRanks: seq<nat>,
    counts: seq<seq<nat>>,           // copies of each identity in the variant
    cardsLeft: nat,
    cardOrder: int,                  // the most recently drawn order, or -1
    clueTokens: int,
    strikes: nat,
    endgameTurns: int)               // turns left once the deck is empty, or -1
  {
    function NumPlayers(): nat { |hands| }

    function NumSuits(): nat { |counts| }

    predicate WellFormed() {
      && |hands| > 0
      && |playStacks| == |discardStacks| == |maxRanks| == |counts|
      && (forall s | 0 <= s < |counts| :: |counts[s]| == MAX_RANK && |discardStacks[s]| == MAX_RANK)
    }

    predicate ValidId(id: Id) { IsId(id, NumSuits()) }

    /** Copies of an identity on the play or discard stacks. */
    function BaseCount(id: Id): int
      requires WellFormed()
    {
      if !ValidId(id) then 0
      else (if playStacks[id.suit] >= id.rank then 1 else 0) + discardStacks[id.suit][id.rank - 1]
    }

    /** Copies of an identity in the whole deck. */
    function CardCount(id: Id): int
      requires WellFormed()
    {
      if !ValidId(id) then 4 else counts[id.suit][id.rank - 1]
    }

    /** Already played, or never playable again. */
    predicate BasicTrash(id: Id)
      requires WellFormed()
    {
      ValidId(id) && (id.rank <= playStacks[id.suit] || id.rank > maxRanks[id.suit])
    }

    predicate Playable(id: Id)
      requires WellFormed()
    {
      ValidId(id) && id.rank == playStacks[id.suit] + 1
    }

    function Score(): nat { Sum(playStacks) }

    function MaxScore(): nat { Sum(maxRanks) }

    function Pace(): int { Score() + cardsLeft + NumPlayers() - MaxScore() }

    predicate Ended() { endgameTurns == 0 }

    function NextPlayer(p: nat): nat
      requires |hands| > 0
    {
      (p + 1) % NumPlayers()
    }
  }

  /** A card in a hand, together with its holder. */
  datatype Entry = Entry(order: Order, player: nat)

  function HandEntries(hand: seq<Order>, p: nat): (es: seq<Entry>)
    ensures |es| == |hand| && forall i | 0 <= i < |hand| :: es[i] == Entry(hand[i], p)
    ensures forall e :: e in es <==> e.player == p && e.order in hand
  {
    var es := seq(|hand|, i requires 0 <= i < |hand| => Entry(hand[i], p));
    assert forall i | 0 <= i < |hand| :: es[i].order == hand[i];
    assert forall e: Entry | e.player == p && e.order in hand :: e in es by {
      forall e: Entry | e.player == p && e.order in hand
        ensures e in es
      {
        var i :| 0 <= i < |hand| && hand[i] == e.order;
        assert es[i] == e;
      }
    }
    es
  }

  /** All cards in hands from player p on, hand by hand (the nested loops over `state.hands`). */
  function EntriesFrom(hands: seq<seq<Order>>, p: nat): (es: seq<Entry>)
    requires p <= |hands|
    ensures forall e :: e in es <==> p <= e.player < |hands| && e.order in hands[e.player]
    decreases |hands| - p
  {
    if p == |hands| then []
    else HandEntries(hands[p], p) + EntriesFrom(hands, p + 1)
  }

  function Entries(st: State): seq<Entry> {
    EntriesFrom(st.hands, 0)
  }

  ghost predicate DistinctOrders(st: State) {
    forall j, k | 0 <= j < k < |Entries(st)| :: Entries(st)[j].order != Entries(st)[k].order
  }

  function HandOrders(st: State): set<Order> {
    set e | e in Entries(st) :: e.order
  }

  /** No order is in two places. */
  ghost predicate DistinctHands(hands: seq<seq<Order>>) {
    forall p, q, i, j | 0 <= p < |hands| && 0 <= q < |hands| && 0 <= i < |hands[p]| && 0 <= j < |hands[q]|
                        && hands[p][i] == hands[q][j] :: p == q && i == j
  }

  lemma {:induction false} DistinctEntries(hands: seq<seq<Order>>, p: nat)
    requires DistinctHands(hands) && p <= |hands|
    ensures forall j, k | 0 <= j < k < |EntriesFrom(hands, p)| :: EntriesFrom(hands, p)[j].order != EntriesFrom(hands, p)[k].order
    decreases |hands| - p
  {
    if p < |hands| {
      DistinctEntries(hands, p + 1);
      var a, b := HandEntries(hands[p], p), EntriesFrom(hands, p + 1);
      assert EntriesFrom(hands, p) == a + b;
      forall j, k | 0 <= j < |a| && 0 <= k < |b|
        ensures a[j].order != b[k].order
      {
        assert b[k] in b;
        var i :| 0 <= i < |hands[b[k].player]| && hands[b[k].player][i] == b[k].order;
      }
    }
  }

  lemma HandOrdersMember(st: State, o: Order)
    ensures o in HandOrders(st) <==> exists p :: 0 <= p < |st.hands| && o in st.hands[p]
  {
    if p: nat :| p < |st.hands| && o in st.hands[p] {
      assert Entry(o, p) in Entries(st);
    }
  }
}
