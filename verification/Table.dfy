// The table part of src/basics.js: how draws, clues, plays and discards change the state,
// and what every run of the game keeps.
module Table {
  import opened Cards
  import opened GameState
  import opened Variants

  datatype Action =
    | Draw(player: nat, order: Order, id: Option<Id>)
    | GiveClue(giver: nat, target: nat, clue: Clue, list: set<Order>)
    | Play(player: nat, order: Order, id: Option<Id>)
    | Discard(player: nat, order: Order, id: Option<Id>, failed: bool)

  function IndexOf(hand: seq<Order>, o: Order): (i: nat)
    requires o in hand
    ensures i < |hand| && hand[i] == o
  {
    if hand[0] == o then 0 else 1 + IndexOf(hand[1..], o)
  }

  /** `hand.splice(hand.indexOf(o), 1)`. */
  function RemoveFrom(hand: seq<Order>, o: Order): seq<Order>
    requires o in hand
  {
    var i := IndexOf(hand, o);
    hand[..i] + hand[i + 1..]
  }

  function RemoveCard(st: State, player: nat, o: Order): seq<seq<Order>>
    requires player < |st.hands| && o in st.hands[player]
  {
    st.hands[player := RemoveFrom(st.hands[player], o)]
  }

  function TurnTaken(st: State): int {
    if st.endgameTurns == -1 then -1 else st.endgameTurns - 1
  }

  function AfterDraw(st: State, player: nat, order: Order, id: Option<Id>): State
    requires player < |st.hands| && st.cardsLeft > 0 && order == |st.deck|
  {
    st.(hands := st.hands[player := [order] + st.hands[player]],
        deck := st.deck + [id],
        cardOrder := order,
        cardsLeft := st.cardsLeft - 1,
        endgameTurns := if st.cardsLeft == 1 then st.NumPlayers() else st.endgameTurns)
  }

  function AfterClue(st: State): State {
    st.(endgameTurns := TurnTaken(st), clueTokens := st.clueTokens - 1)
  }

  function AfterPlay(st: State, player: nat, order: Order, id: Option<Id>): State
    requires st.WellFormed() && player < |st.hands| && order in st.hands[player] && order < |st.deck|
    requires id.Some? ==> st.ValidId(id.value)
  {
    var s := st.(hands := RemoveCard(st, player, order),
                 endgameTurns := TurnTaken(st),
                 clueTokens := if id.Some? && id.value.rank == 5 && st.clueTokens < 8 then st.clueTokens + 1 else st.clueTokens);
    if id.None? then s
    else s.(playStacks := st.playStacks[id.value.suit := id.value.rank], deck := st.deck[order := id])
  }

  /** One more copy of id on its discard stack. */
  function Discarded(st: State, id: Id): State
    requires st.WellFormed() && st.ValidId(id)
  {
    var (s, r) := (id.suit, id.rank - 1);
    st.(discardStacks := st.discardStacks[s := st.discardStacks[s][r := st.discardStacks[s][r] + 1]])
  }

  function AfterDiscard(st: State, player: nat, order: Order, id: Option<Id>, failed: bool): State
    requires st.WellFormed() && player < |st.hands| && order in st.hands[player] && order < |st.deck|
    requires id.Some? ==> st.ValidId(id.value)
  {
    var s := st.(hands := RemoveCard(st, player, order),
                 endgameTurns := TurnTaken(st),
                 strikes := if failed then st.strikes + 1 else st.strikes,
                 clueTokens := if failed then st.clueTokens else Min(st.clueTokens + 1, 8));
    if id.None? then s
    else
      var d := Discarded(s.(deck := st.deck[order := id]), id.value);
      // Discarded all copies of a card: the new max rank is (discarded rank - 1) if not already lower
      if d.discardStacks[id.value.suit][id.value.rank - 1] == st.CardCount(id.value)
      then d.(maxRanks := st.maxRanks[id.value.suit := MinNat(st.maxRanks[id.value.suit], id.value.rank - 1)])
      else d
  }

  function MinNat(a: nat, b: nat): nat { if a <= b then a else b }

  /** Whether the action can be carried out at all. */
  predicate Applicable(st: State, a: Action) {
    && st.WellFormed()
    && match a
       case Draw(p, o, _) => p < |st.hands| && st.cardsLeft > 0 && o == |st.deck|
       case GiveClue(_, target, _, _) => target < |st.hands|
       case Play(p, o, id) => p < |st.hands| && o in st.hands[p] && o < |st.deck| && (id.Some? ==> st.ValidId(id.value))
       case Discard(p, o, id, _) => p < |st.hands| && o in st.hands[p] && o < |st.deck| && (id.Some? ==> st.ValidId(id.value))
  }

  function Next(st: State, a: Action): State
    requires Applicable(st, a)
  {
    match a
    case Draw(p, o, id) => AfterDraw(st, p, o, id)
    case GiveClue(_, _, _, _) => AfterClue(st)
    case Play(p, o, id) => AfterPlay(st, p, o, id)
    case Discard(p, o, id, failed) => AfterDiscard(st, p, o, id, failed)
  }
}
