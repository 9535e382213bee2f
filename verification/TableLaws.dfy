// What every legal run of the game keeps, for the deal that is being played.
module TableLaws {
  import opened Cards
  import opened GameState
  import opened Beliefs
  import opened Variants
  import opened Table

  ghost function Undrawn(w: Deal, st: State, id: Id): set<Order> {
    set o: Order | |st.deck| <= o < |w| && w[o] == id
  }

  /** Every copy of every identity is in a hand, undrawn, played or discarded. */
  ghost predicate Conserved(w: Deal, st: State)
    requires st.WellFormed()
  {
    forall id | st.ValidId(id) :: |Held(w, st, id)| + |Undrawn(w, st, id)| + st.BaseCount(id) == st.CardCount(id)
  }

  /** Cards are numbered in drawing order and what is known of them is true. */
  ghost predicate Placed(w: Deal, st: State) {
    && DistinctHands(st.hands)
    && st.cardOrder == |st.deck| - 1
    && |st.deck| + st.cardsLeft == |w|
    && (forall o | o in HandOrders(st) :: o < |st.deck|)
    && (forall o | 0 <= o < |st.deck| && st.deck[o].Some? :: st.deck[o].value == w[o])
    && (forall o | 0 <= o < |w| :: st.ValidId(w[o]))
  }

  lemma RemovedHand(hand: seq<Order>, o: Order)
    requires o in hand && forall i, j | 0 <= i < j < |hand| :: hand[i] != hand[j]
    ensures forall x :: x in RemoveFrom(hand, o) <==> x in hand && x != o
    ensures forall i, j | 0 <= i < j < |RemoveFrom(hand, o)| :: RemoveFrom(hand, o)[i] != RemoveFrom(hand, o)[j]
  {
    var i := IndexOf(hand, o);
    var r := RemoveFrom(hand, o);
    forall x | x in hand && x != o
      ensures x in r
    {
      var j :| 0 <= j < |hand| && hand[j] == x;
      assert r[if j < i then j else j - 1] == x;
    }
  }

  lemma RemovedHands(st: State, p: nat, o: Order)
    requires DistinctHands(st.hands) && p < |st.hands| && o in st.hands[p]
    ensures var r := st.(hands := RemoveCard(st, p, o));
            DistinctHands(r.hands) && HandOrders(r) == HandOrders(st) - {o}
  {
    var hands := RemoveCard(st, p, o);
    var r := st.(hands := hands);
    RemovedHand(st.hands[p], o);
    var k := IndexOf(st.hands[p], o);
    forall a, b, i, j | 0 <= a < |hands| && 0 <= b < |hands| && 0 <= i < |hands[a]| && 0 <= j < |hands[b]|
                        && hands[a][i] == hands[b][j]
      ensures a == b && i == j
    {
      var i' := if a == p && i >= k then i + 1 else i;
      var j' := if b == p && j >= k then j + 1 else j;
      assert st.hands[a][i'] == st.hands[b][j'];
    }
    forall x: Order
      ensures x in HandOrders(r) <==> x in HandOrders(st) && x != o
    {
      HandOrdersMember(r, x);
      HandOrdersMember(st, x);
      assert x == o ==> forall q | 0 <= q < |hands| :: x !in hands[q] by {
        forall q | x == o && 0 <= q < |hands|
          ensures x !in hands[q]
        {
          if q != p {
            forall j | 0 <= j < |st.hands[q]|
              ensures st.hands[q][j] != st.hands[p][k]
            {
            }
          }
        }
      }
      if x in HandOrders(st) && x != o {
        var q: nat :| q < |st.hands| && x in st.hands[q];
        assert x in hands[q];
      }
      if x in HandOrders(r) {
        var q: nat :| q < |hands| && x in hands[q];
        assert x in st.hands[q];
      }
    }
  }

  lemma DrawnHands(st: State, p: nat, o: Order)
    requires DistinctHands(st.hands) && p < |st.hands| && o !in HandOrders(st)
    ensures var r := st.(hands := st.hands[p := [o] + st.hands[p]]);
            DistinctHands(r.hands) && HandOrders(r) == HandOrders(st) + {o}
  {
    var hands := st.hands[p := [o] + st.hands[p]];
    var r := st.(hands := hands);
    forall q, j | 0 <= q < |st.hands| && 0 <= j < |st.hands[q]|
      ensures st.hands[q][j] != o
    {
      HandOrdersMember(st, st.hands[q][j]);
      assert st.hands[q][j] in st.hands[q];
    }
    forall a, i | 0 <= a < |hands| && 0 <= i < |hands[a]| && !(a == p && i == 0)
      ensures hands[a][i] == st.hands[a][if a == p then i - 1 else i] && hands[a][i] != o
    {
      if a == p {
        assert hands[a][i] == st.hands[a][i - 1];
      }
    }
    forall a, b, i, j | 0 <= a < |hands| && 0 <= b < |hands| && 0 <= i < |hands[a]| && 0 <= j < |hands[b]|
                        && hands[a][i] == hands[b][j]
      ensures a == b && i == j
    {
      assert (a == p && i == 0) == (hands[a][i] == o);
      assert (b == p && j == 0) == (hands[b][j] == o);
      if hands[a][i] != o {
        assert st.hands[a][if a == p then i - 1 else i] == st.hands[b][if b == p then j - 1 else j];
      }
    }
    forall x: Order
      ensures x in HandOrders(r) <==> x in HandOrders(st) || x == o
    {
      HandOrdersMember(r, x);
      HandOrdersMember(st, x);
      if x == o { assert x in hands[p]; }
      if x in HandOrders(st) {
        var q: nat :| q < |st.hands| && x in st.hands[q];
        assert x in hands[q];
      }
      if x in HandOrders(r) && x != o {
        var q: nat :| q < |hands| && x in hands[q];
        assert x in st.hands[q];
      }
    }
  }

  // ----- Legal runs -----

  /** The players who still have to draw: the whole deal at first, then whoever has just used a card. */
  type Owed = seq<nat>

  /** The deal allows the action now, and the action reports the deal truthfully. */
  ghost predicate Legal(w: Deal, v: Variant, st: State, owed: Owed, a: Action) {
    && Applicable(st, a)
    && |v.suits| == st.NumSuits()
    && match a
       case Draw(p, o, id) =>
         owed != [] && p == owed[0] && o < |w| && (id.Some? ==> id.value == w[o])
       case GiveClue(_, target, clue, list) =>
         && owed == [] && !st.Ended() && st.clueTokens > 0
         && (forall o | o in st.hands[target] :: o < |w| && st.ValidId(w[o]) && (o in list <==> CardTouched(w[o], v, clue)))
       case Play(_, o, id) =>
         owed == [] && !st.Ended() && o < |w| && id == Some(w[o]) && st.Playable(w[o])
       case Discard(_, o, id, _) =>
         owed == [] && !st.Ended() && o < |w| && id == Some(w[o])
  }

  function NextOwed(st: State, owed: Owed, a: Action): Owed {
    match a
    case Draw(_, _, _) => if owed == [] then [] else owed[1..]
    case GiveClue(_, _, _, _) => owed
    case Play(p, _, _) => if st.cardsLeft > 0 then owed + [p] else owed
    case Discard(p, _, _, _) => if st.cardsLeft > 0 then owed + [p] else owed
  }

  /** max_ranks[s] is one less than the least rank of which every copy is discarded, or 5. */
  ghost predicate MaxRanksLaw(st: State)
    requires st.WellFormed()
  {
    forall s | 0 <= s < st.NumSuits() ::
      && st.maxRanks[s] <= MAX_RANK && st.playStacks[s] <= MAX_RANK
      && (forall r | 0 <= r < st.maxRanks[s] :: st.discardStacks[s][r] < st.counts[s][r])
      && (st.maxRanks[s] < MAX_RANK ==> st.discardStacks[s][st.maxRanks[s]] == st.counts[s][st.maxRanks[s]])
  }

  ghost predicate Clocked(st: State, owed: Owed) {
    && -1 <= st.endgameTurns <= st.NumPlayers()
    && (st.cardsLeft == 0 <==> st.endgameTurns != -1)
    && |owed| <= st.cardsLeft
    && 0 <= st.clueTokens <= 8
  }

  /** The invariant of every run. */
  ghost predicate TableOk(w: Deal, st: State, owed: Owed) {
    && st.WellFormed()
    && Placed(w, st)
    && Conserved(w, st)
    && MaxRanksLaw(st)
    && Clocked(st, owed)
  }

  /** The cards in hands after an action. */
  function OrdersAfter(st: State, a: Action): set<Order> {
    match a
    case Draw(_, o, _) => HandOrders(st) + {o}
    case GiveClue(_, _, _, _) => HandOrders(st)
    case Play(_, o, _) => HandOrders(st) - {o}
    case Discard(_, o, _, _) => HandOrders(st) - {o}
  }

  lemma HandsStep(st: State, a: Action)
    requires Applicable(st, a) && DistinctHands(st.hands)
    requires forall o | o in HandOrders(st) :: o < |st.deck|
    ensures DistinctHands(Next(st, a).hands)
    ensures HandOrders(Next(st, a)) == OrdersAfter(st, a)
  {
    match a
    case Draw(p, o, id) =>
      DrawnHands(st, p, o);
      assert HandOrders(Next(st, a)) == HandOrders(st.(hands := st.hands[p := [o] + st.hands[p]]));
    case GiveClue(_, _, _, _) =>
    case Play(p, o, id) =>
      RemovedHands(st, p, o);
      assert HandOrders(Next(st, a)) == HandOrders(st.(hands := RemoveCard(st, p, o)));
    case Discard(p, o, id, failed) =>
      RemovedHands(st, p, o);
      assert HandOrders(Next(st, a)) == HandOrders(st.(hands := RemoveCard(st, p, o)));
  }

  lemma PlacedStep(w: Deal, v: Variant, st: State, owed: Owed, a: Action)
    requires TableOk(w, st, owed) && Legal(w, v, st, owed, a)
    ensures Next(st, a).WellFormed() && Placed(w, Next(st, a))
  {
    HandsStep(st, a);
  }

  lemma BaseStep(w: Deal, v: Variant, st: State, owed: Owed, a: Action, id: Id)
    requires Legal(w, v, st, owed, a) && st.ValidId(id) && Next(st, a).WellFormed()
    ensures Next(st, a).BaseCount(id) == st.BaseCount(id) + if (a.Play? || a.Discard?) && w[a.order] == id then 1 else 0
  {
  }

  lemma HeldRemoved(w: Deal, st: State, r: State, o: Order, id: Id)
    requires HandOrders(r) == HandOrders(st) - {o} && o in HandOrders(st) && o < |w|
    ensures |Held(w, r, id)| == |Held(w, st, id)| - if w[o] == id then 1 else 0
  {
    assert Held(w, r, id) == Held(w, st, id) - (if w[o] == id then {o} else {});
  }

  lemma HeldGains(w: Deal, st: State, r: State, o: Order, id: Id)
    requires HandOrders(r) == HandOrders(st) + {o} && o !in HandOrders(st) && o < |w|
    ensures |Held(w, r, id)| == |Held(w, st, id)| + if w[o] == id then 1 else 0
  {
    assert Held(w, r, id) == Held(w, st, id) + (if w[o] == id then {o} else {});
  }

  lemma HeldDrawn(w: Deal, st: State, r: State, o: Order, id: Id)
    requires HandOrders(r) == HandOrders(st) + {o} && o !in HandOrders(st) && o < |w|
    requires o == |st.deck| && |r.deck| == o + 1
    ensures |Held(w, r, id)| == |Held(w, st, id)| + if w[o] == id then 1 else 0
    ensures |Undrawn(w, r, id)| == |Undrawn(w, st, id)| - if w[o] == id then 1 else 0
  {
    HeldGains(w, st, r, o, id);
    hide Held, HandOrders;
    assert Undrawn(w, r, id) == Undrawn(w, st, id) - (if w[o] == id then {o} else {});
  }

  /** Held plus undrawn plus stacked copies of one identity do not change. */
  lemma ConservedOne(w: Deal, v: Variant, st: State, owed: Owed, a: Action, id: Id)
    requires TableOk(w, st, owed) && Legal(w, v, st, owed, a) && st.ValidId(id)
    requires Next(st, a).WellFormed() && HandOrders(Next(st, a)) == OrdersAfter(st, a)
    ensures |Held(w, Next(st, a), id)| + |Undrawn(w, Next(st, a), id)| + Next(st, a).BaseCount(id)
            == |Held(w, st, id)| + |Undrawn(w, st, id)| + st.BaseCount(id)
  {
    var r := Next(st, a);
    BaseStep(w, v, st, owed, a, id);
    if a.Draw? {
      HeldDrawn(w, st, r, a.order, id);
    } else {
      assert |r.deck| == |st.deck|;
      assert Undrawn(w, r, id) == Undrawn(w, st, id);
      if a.GiveClue? {
        assert Held(w, r, id) == Held(w, st, id);
      } else {
        HandOrdersMember(st, a.order);
        HeldRemoved(w, st, r, a.order, id);
      }
    }
  }

  lemma ConservedStep(w: Deal, v: Variant, st: State, owed: Owed, a: Action)
    requires TableOk(w, st, owed) && Legal(w, v, st, owed, a)
    ensures Next(st, a).WellFormed() && Conserved(w, Next(st, a))
  {
    HandsStep(st, a);
    PlacedStep(w, v, st, owed, a);
    forall id | Next(st, a).ValidId(id)
      ensures |Held(w, Next(st, a), id)| + |Undrawn(w, Next(st, a), id)| + Next(st, a).BaseCount(id) == Next(st, a).CardCount(id)
    {
      ConservedOne(w, v, st, owed, a, id);
    }
  }

  /** What is on the stacks never exceeds the copies there are. */
  lemma StacksWithinCounts(w: Deal, st: State, id: Id)
    requires st.WellFormed() && Conserved(w, st) && st.ValidId(id)
    ensures st.BaseCount(id) <= st.CardCount(id)
  {
  }

  lemma MaxRanksPlay(st: State, player: nat, order: Order, id: Id)
    requires Applicable(st, Play(player, order, Some(id))) && MaxRanksLaw(st) && st.Playable(id)
    ensures AfterPlay(st, player, order, Some(id)).WellFormed() && MaxRanksLaw(AfterPlay(st, player, order, Some(id)))
  {
    hide HandOrders, RemoveFrom;
  }

  lemma MaxRanksDiscard(st: State, player: nat, order: Order, id: Id, failed: bool)
    requires Applicable(st, Discard(player, order, Some(id), failed)) && MaxRanksLaw(st)
    requires st.discardStacks[id.suit][id.rank - 1] < st.CardCount(id)
    ensures var r := AfterDiscard(st, player, order, Some(id), failed); r.WellFormed() && MaxRanksLaw(r)
  {
    hide HandOrders, RemoveFrom;
    var r := AfterDiscard(st, player, order, Some(id), failed);
    forall s | 0 <= s < st.NumSuits() && s != id.suit
      ensures r.maxRanks[s] == st.maxRanks[s] && r.discardStacks[s] == st.discardStacks[s]
    {
    }
  }

  lemma MaxRanksStep(w: Deal, v: Variant, st: State, owed: Owed, a: Action)
    requires TableOk(w, st, owed) && Legal(w, v, st, owed, a)
    ensures Next(st, a).WellFormed() && MaxRanksLaw(Next(st, a))
  {
    ConservedStep(w, v, st, owed, a);
    IdPlaced(w, v, st, owed, a);
    hide Conserved, Placed, HandOrders, Clocked, RemoveCard;
    match a
    case Draw(_, _, _) =>
    case GiveClue(_, _, _, _) =>
    case Play(p, o, _) =>
      hide MaxRanksLaw, AfterPlay;
      MaxRanksPlay(st, p, o, w[o]);
    case Discard(p, o, _, failed) =>
      CopyLeft(w, v, st, owed, a);
      hide MaxRanksLaw, AfterDiscard;
      MaxRanksDiscard(st, p, o, w[o], failed);
  }

  /** The card that is discarded was not on a stack before. */
  lemma CopyLeft(w: Deal, v: Variant, st: State, owed: Owed, a: Action)
    requires TableOk(w, st, owed) && Legal(w, v, st, owed, a) && a.Discard? && st.ValidId(w[a.order])
    requires Next(st, a).WellFormed() && Conserved(w, Next(st, a))
    ensures st.discardStacks[w[a.order].suit][w[a.order].rank - 1] < st.CardCount(w[a.order])
  {
    hide TableOk, HandOrders, RemoveCard;
    BaseStep(w, v, st, owed, a, w[a.order]);
    StacksWithinCounts(w, Next(st, a), w[a.order]);
  }

  lemma IdPlaced(w: Deal, v: Variant, st: State, owed: Owed, a: Action)
    requires TableOk(w, st, owed) && Legal(w, v, st, owed, a)
    ensures a.Play? || a.Discard? ==> st.ValidId(w[a.order])
  {
    hide Conserved, MaxRanksLaw, HandOrders;
  }

  lemma ClockedStep(w: Deal, v: Variant, st: State, owed: Owed, a: Action)
    requires TableOk(w, st, owed) && Legal(w, v, st, owed, a)
    ensures Clocked(Next(st, a), NextOwed(st, owed, a))
  {
  }

  lemma TableStep(w: Deal, v: Variant, st: State, owed: Owed, a: Action)
    requires TableOk(w, st, owed) && Legal(w, v, st, owed, a)
    ensures TableOk(w, Next(st, a), NextOwed(st, owed, a))
  {
    PlacedStep(w, v, st, owed, a);
    ConservedStep(w, v, st, owed, a);
    MaxRanksStep(w, v, st, owed, a);
    ClockedStep(w, v, st, owed, a);
  }

  /** No stack grows past the ranks that can still be reached. */
  lemma StacksBelowMax(w: Deal, st: State)
    requires st.WellFormed() && Conserved(w, st) && MaxRanksLaw(st)
    ensures forall s | 0 <= s < st.NumSuits() :: st.playStacks[s] <= st.maxRanks[s]
  {
    forall s | 0 <= s < st.NumSuits()
      ensures st.playStacks[s] <= st.maxRanks[s]
    {
      if st.maxRanks[s] < MAX_RANK {
        StacksWithinCounts(w, st, Id(s, st.maxRanks[s] + 1));
      }
    }
  }

  // ----- Whole runs -----

  ghost predicate LegalRun(w: Deal, v: Variant, st: State, owed: Owed, actions: seq<Action>)
    decreases |actions|
  {
    actions != [] ==>
      Legal(w, v, st, owed, actions[0]) && LegalRun(w, v, Next(st, actions[0]), NextOwed(st, owed, actions[0]), actions[1..])
  }

  /** The state a run ends in, and who still has to draw. */
  ghost function Final(w: Deal, v: Variant, st: State, owed: Owed, actions: seq<Action>): (State, Owed)
    requires LegalRun(w, v, st, owed, actions)
    decreases |actions|
  {
    if actions == [] then (st, owed)
    else Final(w, v, Next(st, actions[0]), NextOwed(st, owed, actions[0]), actions[1..])
  }

  /** Conservation, the max-ranks law, the clock and the token bounds hold in every reachable state. */
  lemma {:induction false} RunKeepsTable(w: Deal, v: Variant, st: State, owed: Owed, actions: seq<Action>)
    requires TableOk(w, st, owed) && LegalRun(w, v, st, owed, actions)
    ensures var (last, left) := Final(w, v, st, owed, actions);
            && TableOk(w, last, left)
            && forall s | 0 <= s < last.NumSuits() :: last.playStacks[s] <= last.maxRanks[s]
    decreases |actions|
  {
    if actions == [] {
      StacksBelowMax(w, st);
    } else {
      TableStep(w, v, st, owed, actions[0]);
      RunKeepsTable(w, v, Next(st, actions[0]), NextOwed(st, owed, actions[0]), actions[1..]);
    }
  }

  /** The most points still within reach: one for every card to be drawn and every turn of the last round. */
  function Reach(st: State, owed: Owed): int {
    st.Score() + st.cardsLeft - |owed| + (if st.endgameTurns == -1 then st.NumPlayers() else st.endgameTurns)
  }

  lemma ReachStep(w: Deal, v: Variant, st: State, owed: Owed, a: Action)
    requires TableOk(w, st, owed) && Legal(w, v, st, owed, a)
    ensures Reach(Next(st, a), NextOwed(st, owed, a)) <= Reach(st, owed)
  {
    if a.Play? {
      var id := w[a.order];
      SumUpdate(st.playStacks, id.suit, id.rank);
    }
  }

  /** The final score never exceeds score + cardsLeft + numPlayers. */
  lemma {:induction false} ScoreBound(w: Deal, v: Variant, st: State, owed: Owed, actions: seq<Action>)
    requires TableOk(w, st, owed) && LegalRun(w, v, st, owed, actions)
    ensures Final(w, v, st, owed, actions).0.Score() <= Reach(st, owed)
    decreases |actions|
  {
    if actions != [] {
      TableStep(w, v, st, owed, actions[0]);
      ReachStep(w, v, st, owed, actions[0]);
      ScoreBound(w, v, Next(st, actions[0]), NextOwed(st, owed, actions[0]), actions[1..]);
    }
  }

  // ----- Clue tokens and strikes -----

  function Clues(actions: seq<Action>): nat {
    if actions == [] then 0 else (if actions[0].GiveClue? then 1 else 0) + Clues(actions[1..])
  }

  function Misplays(actions: seq<Action>): nat {
    if actions == [] then 0 else (if actions[0].Discard? && actions[0].failed then 1 else 0) + Misplays(actions[1..])
  }

  /** Discards that are no misplays, and fives: what gives a clue token back. */
  predicate Earns(a: Action) {
    (a.Discard? && !a.failed) || (a.Play? && a.id.Some? && a.id.value.rank == 5)
  }

  /** The tokens that the run gives back, without those that come on top of eight. */
  ghost function Earned(w: Deal, v: Variant, st: State, owed: Owed, actions: seq<Action>): nat
    requires LegalRun(w, v, st, owed, actions)
    decreases |actions|
  {
    if actions == [] then 0
    else (if Earns(actions[0]) && st.clueTokens < 8 then 1 else 0)
         + Earned(w, v, Next(st, actions[0]), NextOwed(st, owed, actions[0]), actions[1..])
  }

  /** Strikes count the misplays, which give no token back; every clue costs one. */
  lemma {:induction false} TokensBalance(w: Deal, v: Variant, st: State, owed: Owed, actions: seq<Action>)
    requires TableOk(w, st, owed) && LegalRun(w, v, st, owed, actions)
    ensures var last := Final(w, v, st, owed, actions).0;
            && last.strikes == st.strikes + Misplays(actions)
            && last.clueTokens + Clues(actions) == st.clueTokens + Earned(w, v, st, owed, actions)
    decreases |actions|
  {
    if actions != [] {
      TableStep(w, v, st, owed, actions[0]);
      TokenStep(st, actions[0]);
      hide TableOk, Legal, Next;
      TokensBalance(w, v, Next(st, actions[0]), NextOwed(st, owed, actions[0]), actions[1..]);
    }
  }

  lemma TokenStep(st: State, a: Action)
    requires Applicable(st, a) && st.clueTokens <= 8
    ensures Next(st, a).strikes == st.strikes + if a.Discard? && a.failed then 1 else 0
    ensures Next(st, a).clueTokens + (if a.GiveClue? then 1 else 0) == st.clueTokens + if Earns(a) && st.clueTokens < 8 then 1 else 0
  {
  }

  lemma CountdownStep(w: Deal, v: Variant, st: State, owed: Owed, a: Action)
    requires TableOk(w, st, owed) && Legal(w, v, st, owed, a) && st.cardsLeft == 0
    ensures Next(st, a).cardsLeft == 0 && Next(st, a).endgameTurns == st.endgameTurns - 1 >= 0
  {
  }

  /** Once the deck is empty, every action is a turn and the game ends exactly when the turns run out. */
  lemma {:induction false} Countdown(w: Deal, v: Variant, st: State, owed: Owed, actions: seq<Action>)
    requires TableOk(w, st, owed) && LegalRun(w, v, st, owed, actions) && st.cardsLeft == 0
    ensures |actions| <= st.endgameTurns
    ensures Final(w, v, st, owed, actions).0.Ended() <==> |actions| == st.endgameTurns
    decreases |actions|
  {
    if actions != [] {
      TableStep(w, v, st, owed, actions[0]);
      CountdownStep(w, v, st, owed, actions[0]);
      hide TableOk, Legal, Next, NextOwed;
      Countdown(w, v, Next(st, actions[0]), NextOwed(st, owed, actions[0]), actions[1..]);
    }
  }

  /** Drawing the last card leaves each player exactly one more turn. */
  lemma LastDrawStartsCountdown(w: Deal, v: Variant, st: State, owed: Owed, draw: Action, actions: seq<Action>)
    requires TableOk(w, st, owed) && draw.Draw? && st.cardsLeft == 1
    requires LegalRun(w, v, st, owed, [draw] + actions)
    ensures |actions| <= st.NumPlayers()
    ensures Final(w, v, st, owed, [draw] + actions).0.Ended() <==> |actions| == st.NumPlayers()
  {
    assert ([draw] + actions)[1..] == actions;
    TableStep(w, v, st, owed, draw);
    Countdown(w, v, Next(st, draw), NextOwed(st, owed, draw), actions);
  }

  // ----- The start of a game -----

  /** The state that the constructor builds. */
  function NewState(v: Variant, numPlayers: nat, deckSize: nat): State {
    var n := |v.suits|;
    State(
      seq(numPlayers, _ => []), [],
      seq(n, _ => 0), seq(n, _ => [0, 0, 0, 0, 0]), seq(n, _ => MAX_RANK),
      CountTable(v), deckSize, -1, 8, 0, -1)
  }

  /** A shuffled deck of the variant. */
  ghost predicate IsDeck(w: Deal, v: Variant) {
    && w != []
    && (forall o | 0 <= o < |w| :: IsId(w[o], |v.suits|))
    && (forall id | IsId(id, |v.suits|) :: |set o: Order | o < |w| && w[o] == id| == CardCount(v, id))
  }

  lemma NewStateOk(w: Deal, v: Variant, numPlayers: nat, owed: Owed)
    requires IsDeck(w, v) && numPlayers > 0 && |owed| <= |w|
    ensures TableOk(w, NewState(v, numPlayers, |w|), owed)
  {
    var st := NewState(v, numPlayers, |w|);
    NewStateEmpty(v, numPlayers, |w|);
    NewStateMaxRanks(v, numPlayers, |w|);
    forall id | st.ValidId(id)
      ensures |Held(w, st, id)| + |Undrawn(w, st, id)| + st.BaseCount(id) == st.CardCount(id)
    {
      NewStateCounts(w, v, numPlayers, id);
    }
  }

  lemma NewStateEmpty(v: Variant, numPlayers: nat, n: nat)
    ensures HandOrders(NewState(v, numPlayers, n)) == {}
  {
    forall o: Order
      ensures o !in HandOrders(NewState(v, numPlayers, n))
    {
      HandOrdersMember(NewState(v, numPlayers, n), o);
    }
  }

  lemma NewStateCounts(w: Deal, v: Variant, numPlayers: nat, id: Id)
    requires IsDeck(w, v) && numPlayers > 0 && IsId(id, |v.suits|)
    ensures var st := NewState(v, numPlayers, |w|);
            st.WellFormed() && |Held(w, st, id)| + |Undrawn(w, st, id)| + st.BaseCount(id) == st.CardCount(id)
  {
    var st := NewState(v, numPlayers, |w|);
    NewStateEmpty(v, numPlayers, |w|);
    assert Held(w, st, id) == {};
    assert Undrawn(w, st, id) == set o: Order | o < |w| && w[o] == id;
    assert st.counts[id.suit][id.rank - 1] == CardCount(v, Id(id.suit, id.rank));
  }

  lemma NewStateMaxRanks(v: Variant, numPlayers: nat, n: nat)
    requires numPlayers > 0
    ensures NewState(v, numPlayers, n).WellFormed() && MaxRanksLaw(NewState(v, numPlayers, n))
  {
    forall s, r | 0 <= s < |v.suits| && 0 <= r < MAX_RANK
      ensures CountTable(v)[s][r] > 0
    {
      assert CountTable(v)[s][(r + 1) - 1] >= 1;
    }
  }

  function CountPlays(actions: seq<Action>): nat {
    if actions == [] then 0 else (if actions[0].Play? then 1 else 0) + CountPlays(actions[1..])
  }

  function CountDraws(actions: seq<Action>): nat {
    if actions == [] then 0 else (if actions[0].Draw? then 1 else 0) + CountDraws(actions[1..])
  }

  /** Every play is a point and every draw a card less in the deck. */
  lemma {:induction false} PointsBalance(w: Deal, v: Variant, st: State, owed: Owed, actions: seq<Action>)
    requires TableOk(w, st, owed) && LegalRun(w, v, st, owed, actions)
    ensures var last := Final(w, v, st, owed, actions).0;
            last.Score() == st.Score() + CountPlays(actions) && last.cardsLeft + CountDraws(actions) == st.cardsLeft
    decreases |actions|
  {
    if actions != [] {
      TableStep(w, v, st, owed, actions[0]);
      PointStep(w, v, st, owed, actions[0]);
      hide TableOk, Legal, Next, State.Score;
      PointsBalance(w, v, Next(st, actions[0]), NextOwed(st, owed, actions[0]), actions[1..]);
    }
  }

  lemma PointStep(w: Deal, v: Variant, st: State, owed: Owed, a: Action)
    requires TableOk(w, st, owed) && Legal(w, v, st, owed, a)
    ensures Next(st, a).Score() == st.Score() + if a.Play? then 1 else 0
    ensures Next(st, a).cardsLeft + (if a.Draw? then 1 else 0) == st.cardsLeft
  {
    if a.Play? {
      var id := w[a.order];
      SumUpdate(st.playStacks, id.suit, id.rank);
    }
  }

  lemma {:induction false} SumZeros(s: seq<nat>)
    requires forall i | 0 <= i < |s| :: s[i] == 0
    ensures Sum(s) == 0
  {
    if s != [] { SumZeros(s[1..]); }
  }

  /** A whole game: a point for every play, a strike for every misplay, eight clue tokens to begin with. */
  lemma WholeGame(w: Deal, v: Variant, numPlayers: nat, owed: Owed, actions: seq<Action>)
    requires IsDeck(w, v) && numPlayers > 0 && |owed| <= |w| && LegalRun(w, v, NewState(v, numPlayers, |w|), owed, actions)
    ensures var (start, last) := (NewState(v, numPlayers, |w|), Final(w, v, NewState(v, numPlayers, |w|), owed, actions).0);
            && last.Score() == CountPlays(actions) && last.cardsLeft + CountDraws(actions) == |w| && last.strikes == Misplays(actions)
            && last.clueTokens + Clues(actions) == 8 + Earned(w, v, start, owed, actions)
  {
    NewStateOk(w, v, numPlayers, owed);
    var start := NewState(v, numPlayers, |w|);
    SumZeros(start.playStacks);
    TokensBalance(w, v, start, owed, actions);
    PointsBalance(w, v, start, owed, actions);
  }
}
