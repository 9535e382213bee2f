// `advance_state` of src/conventions/shared/endgame-helper.js and the game the endgame search explores.
module EndgameSteps {
  import opened Cards
  import opened GameState
  import opened Table

  /** A move of the player whose turn it is; which clue is given does not matter. */
  datatype Move = PlayCard(order: Order) | DiscardCard(order: Order) | AnyClue

  /** An identity that may still be drawn, and how many copies of it. */
  datatype Remaining = Remaining(id: Id, missing: nat, all: bool)

  // ----- advance_state -----

  predicate CanAdvance(st: State, p: nat, m: Move) {
    && st.WellFormed() && p < |st.hands|
    && 0 <= st.cardOrder + 1 <= |st.deck|
    && (m.AnyClue? || (m.order in st.hands[p] && m.order < |st.deck|))
    && (!m.AnyClue? && st.endgameTurns == -1 ==> st.cardsLeft > 0)
  }

  /** `remove_and_draw_new`, applied to the new state s made from st. */
  function RemoveAndDraw(st: State, s: State, p: nat, o: Order, draw: Option<Id>): State
    requires p < |st.hands| && o in st.hands[p] && 0 <= st.cardOrder + 1 <= |st.deck|
    requires st.endgameTurns == -1 ==> st.cardsLeft > 0
  {
    var newOrder := st.cardOrder + 1;
    var deck := if newOrder == |st.deck| then st.deck + [draw] else st.deck;
    if st.endgameTurns == -1 then
      s.(hands := st.hands[p := [newOrder] + RemoveFrom(st.hands[p], o)],
         cardOrder := newOrder,
         cardsLeft := st.cardsLeft - 1,
         endgameTurns := if st.cardsLeft == 1 then st.NumPlayers() else -1,
         deck := deck)
    else
      s.(hands := st.hands[p := RemoveFrom(st.hands[p], o)],
         endgameTurns := st.endgameTurns - 1,
         deck := deck)
  }

  function Advance(st: State, p: nat, m: Move, draw: Option<Id>): State
    requires CanAdvance(st, p, m)
  {
    match m
    case PlayCard(o) =>
      var id := st.deck[o];
      var s :=
        if id.Some? && st.Playable(id.value) then
          st.(playStacks := st.playStacks[id.value.suit := id.value.rank],
              clueTokens := if id.value.rank == 5 then Min(st.clueTokens + 1, 8) else st.clueTokens)
        else if id.Some? && st.ValidId(id.value) then Discarded(st, id.value).(strikes := st.strikes + 1)
        else st.(strikes := st.strikes + 1);
      RemoveAndDraw(st, s, p, o, draw)
    case DiscardCard(o) =>
      var id := st.deck[o];
      var s := if id.Some? && st.ValidId(id.value) then Discarded(st, id.value) else st;
      RemoveAndDraw(st, s.(clueTokens := Min(st.clueTokens + 1, 8)), p, o, draw)
    case AnyClue =>
      st.(clueTokens := st.clueTokens - 1, endgameTurns := TurnTaken(st))
  }

  /** `advance_state`: assigns the fields of a shallow copy one after the other. */
  method AdvanceState(st: State, p: nat, m: Move, draw: Option<Id>) returns (newState: State)
    requires CanAdvance(st, p, m)
    ensures newState == Advance(st, p, m, draw)
  {
    newState := st;
    match m
    case PlayCard(o) =>
      var id := st.deck[o];
      if id.Some? && st.Playable(id.value) {
        newState := newState.(playStacks := st.playStacks[id.value.suit := id.value.rank]);
        if id.value.rank == 5 {
          newState := newState.(clueTokens := Min(st.clueTokens + 1, 8));
        }
      } else {
        if id.Some? && st.ValidId(id.value) {
          newState := Discarded(newState, id.value);
        }
        newState := newState.(strikes := st.strikes + 1);
      }
      newState := RemoveAndDraw(st, newState, p, o, draw);
    case DiscardCard(o) =>
      var id := st.deck[o];
      if id.Some? && st.ValidId(id.value) {
        newState := Discarded(newState, id.value);
      }
      newState := newState.(clueTokens := Min(st.clueTokens + 1, 8));
      newState := RemoveAndDraw(st, newState, p, o, draw);
    case AnyClue =>
      newState := newState.(clueTokens := newState.clueTokens - 1);
      newState := newState.(endgameTurns := if st.endgameTurns == -1 then -1 else st.endgameTurns - 1);
  }

  // ----- Agreement with the real game -----

  /** the real actions that a move stands for, when the card is known. */
  function RealActions(st: State, p: nat, m: Move, draw: Option<Id>, clue: Action): seq<Action>
    requires CanAdvance(st, p, m)
  {
    if m.AnyClue? then [clue]
    else if st.cardsLeft > 0 then [CardAction(st, p, m), Draw(p, |st.deck|, draw)]
    else [CardAction(st, p, m)]
  }

  predicate Runs(st: State, actions: seq<Action>)
    decreases |actions|
  {
    actions != [] ==> Applicable(st, actions[0]) && Runs(Next(st, actions[0]), actions[1..])
  }

  function RunAll(st: State, actions: seq<Action>): State
    requires Runs(st, actions)
    decreases |actions|
  {
    if actions == [] then st else RunAll(Next(st, actions[0]), actions[1..])
  }

  lemma RunOne(st: State, a: Action)
    requires Applicable(st, a)
    ensures Runs(st, [a]) && RunAll(st, [a]) == Next(st, a)
  {
    assert [a][1..] == [];
  }

  lemma RunTwo(st: State, a: Action, b: Action)
    requires Applicable(st, a) && Applicable(Next(st, a), b)
    ensures Runs(st, [a, b]) && RunAll(st, [a, b]) == Next(Next(st, a), b)
  {
    assert [a, b][1..] == [b];
    RunOne(Next(st, a), b);
  }

  /** The play or discard that a move on a known card stands for. */
  function CardAction(st: State, p: nat, m: Move): Action
    requires CanAdvance(st, p, m) && !m.AnyClue?
  {
    var id := st.deck[m.order];
    if m.PlayCard? && id.Some? && st.Playable(id.value) then Play(p, m.order, id)
    else Discard(p, m.order, id, m.PlayCard?)
  }

  predicate KnownMove(st: State, p: nat, m: Move) {
    && CanAdvance(st, p, m)
    && (!m.AnyClue? ==> st.deck[m.order].Some? && st.ValidId(st.deck[m.order].value))
    && (st.cardsLeft == 0 <==> st.endgameTurns != -1) && st.clueTokens <= 8
    && (st.endgameTurns == -1 ==> st.cardOrder + 1 == |st.deck|)
  }

  /** The two states agree on everything but max_ranks. */
  predicate SameButMaxRanks(s: State, t: State) {
    s == t.(maxRanks := s.maxRanks)
  }

  lemma AdvanceBeforeDraw(st: State, p: nat, m: Move, draw: Option<Id>)
    requires KnownMove(st, p, m) && !m.AnyClue? && st.endgameTurns == -1
    ensures Applicable(st, CardAction(st, p, m))
    ensures Applicable(Next(st, CardAction(st, p, m)), Draw(p, |st.deck|, draw))
    ensures SameButMaxRanks(Advance(st, p, m, draw), Next(Next(st, CardAction(st, p, m)), Draw(p, |st.deck|, draw)))
  {
    var mid := Next(st, CardAction(st, p, m));
    assert st.deck[m.order := st.deck[m.order]] == st.deck;
    assert mid.hands == st.hands[p := RemoveFrom(st.hands[p], m.order)];
    var hand := [|st.deck|] + RemoveFrom(st.hands[p], m.order);
    assert mid.hands[p := hand] == st.hands[p := hand];
  }

  lemma AdvanceLastRound(st: State, p: nat, m: Move, draw: Option<Id>)
    requires KnownMove(st, p, m) && !m.AnyClue? && st.endgameTurns != -1
    ensures Applicable(st, CardAction(st, p, m))
    ensures var r := Advance(st, p, m, draw);
            st.deck <= r.deck && SameButMaxRanks(r.(deck := st.deck), Next(st, CardAction(st, p, m)))
  {
    assert st.deck[m.order := st.deck[m.order]] == st.deck;
  }

  /** advance_state is the real step: onPlay or onDiscard followed by the draw, or onClue. It differs only
      in never lowering max_ranks, and in noting an unknown card past the end of the deck in the last round. */
  lemma AdvanceSimulates(st: State, p: nat, m: Move, draw: Option<Id>, clue: Action)
    requires KnownMove(st, p, m) && clue.GiveClue? && clue.target < |st.hands|
    ensures Runs(st, RealActions(st, p, m, draw, clue))
    ensures var r := Advance(st, p, m, draw);
            var truth := RunAll(st, RealActions(st, p, m, draw, clue));
            truth.deck <= r.deck && (st.endgameTurns == -1 ==> truth.deck == r.deck)
            && SameButMaxRanks(r.(deck := truth.deck), truth)
  {
    if m.AnyClue? {
      RunOne(st, clue);
    } else if st.cardsLeft > 0 {
      AdvanceBeforeDraw(st, p, m, draw);
      RunTwo(st, CardAction(st, p, m), Draw(p, |st.deck|, draw));
    } else {
      AdvanceLastRound(st, p, m, draw);
      RunOne(st, CardAction(st, p, m));
    }
  }
}
