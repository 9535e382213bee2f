// Positions of the endgame search written as boards: what cards are where, without their numbers.
// A script of moves on a board stands for a path of the search.
module Boards {
  import opened Cards
  import opened GameState
  import opened TableLaws
  import opened Table
  import opened EndgameSteps
  import opened EndgameGame
  import opened EndgamePruning
  import opened DiscardSymmetry
  import opened MemoKey
  import opened EndgameSearch

  /** An identity of rank 0 on a board stands for a card that nobody has identified. */
  const UNKNOWN := Id(0, 0)

  datatype Board = Board(
    hands: seq<seq<Id>>,
    stacks: seq<nat>,
    maxRanks: seq<nat>,
    tokens: int,
    turns: int,
    turn: nat,
    draws: seq<Id>,                      // the cards still to be drawn, the next one first
    drawn: seq<Id>,                      // the cards drawn since the root
    noted: bool)                         // an unknown card is noted past the end of the deck

  /** A clue, or a play or a discard of the card at a place in the hand. */
  datatype Act = Hint | Put(place: nat) | Drop(place: nat)

  function Named(ids: seq<Id>): (n: seq<Option<Id>>)
    ensures |n| == |ids| && forall i | 0 <= i < |n| :: n[i] == Some(ids[i])
  {
    seq(|ids|, i requires 0 <= i < |ids| => Some(ids[i]))
  }

  /** What is known of a card on a board. */
  function Face(id: Id): Option<Id> {
    if id.rank == 0 then None else Some(id)
  }

  function Faces(ids: seq<Id>): (n: seq<Option<Id>>)
    ensures |n| == |ids| && forall i | 0 <= i < |n| :: n[i] == Face(ids[i])
  {
    seq(|ids|, i requires 0 <= i < |ids| => Face(ids[i]))
  }

  /** Trash, or unknown. */
  predicate Spent(b: Board, id: Id) {
    id.rank == 0 ||
    (&& id.suit < |b.stacks| && id.suit < |b.maxRanks| && id.rank <= MAX_RANK
     && (id.rank <= b.stacks[id.suit] || id.rank > b.maxRanks[id.suit]))
  }

  predicate Fits(b: Board, id: Id) {
    id.suit < |b.stacks| && 1 <= id.rank <= MAX_RANK && id.rank == b.stacks[id.suit] + 1
  }

  predicate Can(b: Board, a: Act) {
    && b.turns != 0 && b.turn < |b.hands|
    && (a.Hint? || b.turns != -1 || b.draws != [])
    && match a
       case Hint => b.tokens > 0
       case Put(i) => i < |b.hands[b.turn]| && Fits(b, b.hands[b.turn][i])
       case Drop(i) => i < |b.hands[b.turn]| && Spent(b, b.hands[b.turn][i]) && forall j | 0 <= j < i :: !Spent(b, b.hands[b.turn][j])
  }

  function Without(hand: seq<Id>, i: nat): seq<Id>
    requires i < |hand|
  {
    hand[..i] + hand[i + 1..]
  }

  function TokensAfter(b: Board, a: Act): int
    requires Can(b, a)
  {
    match a
    case Hint => b.tokens - 1
    case Put(i) => if b.hands[b.turn][i].rank == 5 then Min(b.tokens + 1, 8) else b.tokens
    case Drop(_) => Min(b.tokens + 1, 8)
  }

  function Do(b: Board, a: Act): Board
    requires Can(b, a)
  {
    var n := (b.turn + 1) % |b.hands|;
    if a.Hint? then b.(tokens := b.tokens - 1, turns := if b.turns == -1 then -1 else b.turns - 1, turn := n)
    else
      var hand := b.hands[b.turn];
      var id := hand[a.place];
      var stacks := if a.Put? then b.stacks[id.suit := id.rank] else b.stacks;
      if b.turns == -1 then
        b.(hands := b.hands[b.turn := [b.draws[0]] + Without(hand, a.place)], stacks := stacks, tokens := TokensAfter(b, a),
           turns := if |b.draws| == 1 then |b.hands| else -1, turn := n, draws := b.draws[1..], drawn := b.drawn + [b.draws[0]])
      else
        b.(hands := b.hands[b.turn := Without(hand, a.place)], stacks := stacks, tokens := TokensAfter(b, a),
           turns := b.turns - 1, turn := n, noted := true)
  }

  // ----- Boards and positions -----

  ghost predicate HandShown(deck: seq<Option<Id>>, hand: seq<Order>, ids: seq<Id>) {
    && |hand| == |ids|
    && (forall i | 0 <= i < |hand| :: hand[i] < |deck| && deck[hand[i]] == Face(ids[i]))
    && (forall i, j | 0 <= i < j < |hand| :: hand[i] != hand[j])
  }

  /** What may be drawn after some cards have been drawn. */
  ghost function Left(remaining: seq<Remaining>, drawn: seq<Id>): seq<Remaining>
    decreases |drawn|
  {
    if drawn == [] then remaining
    else
      var before := Left(remaining, drawn[..|drawn| - 1]);
      var id := drawn[|drawn| - 1];
      if Drawable(before, id) && forall r | r in before :: r.missing >= 1 then RemoveRemaining(before, id) else before
  }

  /** The position looks like the board. */
  ghost predicate Shows(root: Pos, pos: Pos, b: Board) {
    && Sane(pos) && |pos.st.hands| == |b.hands|
    && (forall p | 0 <= p < |b.hands| :: HandShown(pos.st.deck, pos.st.hands[p], b.hands[p]))
    && pos.st.playStacks == b.stacks && pos.st.maxRanks == b.maxRanks && pos.st.clueTokens == b.tokens
    && pos.st.endgameTurns == b.turns && pos.turn == b.turn && pos.st.cardsLeft == |b.draws|
    && (forall id :: Missing(pos.remaining, id) >= multiset(b.draws)[id]) && pos.remaining == Left(root.remaining, b.drawn)
    && pos.st.deck == root.st.deck + Named(b.drawn) + (if b.noted then [None] else [])
    && pos.st.cardOrder + 1 == |root.st.deck| + |b.drawn| && (b.noted ==> b.turns != -1)
  }

  lemma SpentIsTrash(root: Pos, pos: Pos, b: Board, id: Id)
    requires Shows(root, pos, b) && pos.st.ValidId(id)
    ensures Spent(b, id) <==> pos.st.BasicTrash(id)
    ensures Fits(b, id) <==> pos.st.Playable(id)
  {
  }

  /** The card at a place of the hand is found there. */
  lemma {:induction false} IndexIsPlace(hand: seq<Order>, i: nat)
    requires i < |hand| && forall j, k | 0 <= j < k < |hand| :: hand[j] != hand[k]
    ensures IndexOf(hand, hand[i]) == i
  {
    if i > 0 {
      assert hand[1..][i - 1] == hand[i];
      IndexIsPlace(hand[1..], i - 1);
    }
  }

  lemma {:induction false} FirstSpent(root: Pos, pos: Pos, b: Board, hand: seq<Order>, ids: seq<Id>, i: nat)
    requires Shows(root, pos, b) && HandShown(pos.st.deck, hand, ids)
    requires i < |ids| && Spent(b, ids[i]) && forall j | 0 <= j < i :: !Spent(b, ids[j])
    ensures FirstDiscardable(pos.st, hand) == Some(hand[i])
  {
    var o := hand[0];
    assert pos.st.deck[o] == Face(ids[0]);
    if ids[0].rank > 0 { SpentIsTrash(root, pos, b, ids[0]); }
    if i > 0 {
      forall j | 0 <= j < |hand| - 1
        ensures hand[1..][j] == hand[j + 1] && ids[1..][j] == ids[j + 1]
      {
      }
      FirstSpent(root, pos, b, hand[1..], ids[1..], i - 1);
    }
  }

  /** The step that an act stands for. */
  ghost function StepOf(pos: Pos, b: Board, a: Act): Step
    requires Can(b, a) && |pos.st.hands| == |b.hands| && pos.turn == b.turn && |pos.st.hands[b.turn]| == |b.hands[b.turn]|
  {
    var draw := if b.turns == -1 && b.draws != [] then Some(b.draws[0]) else None;
    match a
    case Hint => Step(AnyClue, None)
    case Put(i) => Step(PlayCard(pos.st.hands[b.turn][i]), draw)
    case Drop(i) => Step(DiscardCard(pos.st.hands[b.turn][i]), draw)
  }

  lemma ActIsLegal(root: Pos, pos: Pos, b: Board, a: Act)
    requires Shows(root, pos, b) && Can(b, a)
    ensures StepLegal(pos, StepOf(pos, b, a), false)
  {
    var hand, ids := pos.st.hands[b.turn], b.hands[b.turn];
    assert HandShown(pos.st.deck, hand, ids);
    if !a.Hint? {
      assert hand[a.place] in hand && pos.st.deck[hand[a.place]] == Face(ids[a.place]);
      if ids[a.place].rank > 0 { SpentIsTrash(root, pos, b, ids[a.place]); }
      if a.Drop? { FirstSpent(root, pos, b, hand, ids, a.place); }
      if b.turns == -1 {
        assert b.draws[0] in multiset(b.draws);
        MissingPositive(pos.remaining, b.draws[0]);
      }
    }
  }

  lemma ShownLonger(deck: seq<Option<Id>>, more: seq<Option<Id>>, hand: seq<Order>, ids: seq<Id>)
    requires HandShown(deck, hand, ids)
    ensures HandShown(deck + more, hand, ids)
  {
  }

  lemma ShownWithout(deck: seq<Option<Id>>, hand: seq<Order>, ids: seq<Id>, i: nat)
    requires HandShown(deck, hand, ids) && i < |hand|
    ensures HandShown(deck, RemoveFrom(hand, hand[i]), Without(ids, i))
  {
    IndexIsPlace(hand, i);
  }

  lemma ShownDrawn(deck: seq<Option<Id>>, hand: seq<Order>, ids: seq<Id>, id: Id)
    requires HandShown(deck, hand, ids) && id.rank > 0
    ensures HandShown(deck + [Some(id)], [|deck|] + hand, [id] + ids)
  {
  }

  /** The mover's new hand. */
  lemma NewHandShown(b: Board, a: Act, deck: seq<Option<Id>>, hand: seq<Order>)
    requires Can(b, a) && !a.Hint? && HandShown(deck, hand, b.hands[b.turn]) && (b.turns == -1 ==> b.draws[0].rank > 0)
    ensures a.place < |hand|
    ensures HandShown(deck + NewCards(b), (if b.turns == -1 then [|deck|] else []) + RemoveFrom(hand, hand[a.place]), Do(b, a).hands[b.turn])
  {
    var ids := b.hands[b.turn];
    ShownWithout(deck, hand, ids, a.place);
    hide HandShown;
    if b.turns == -1 {
      ShownDrawn(deck, RemoveFrom(hand, hand[a.place]), Without(ids, a.place), b.draws[0]);
    } else {
      ShownLonger(deck, NewCards(b), RemoveFrom(hand, hand[a.place]), Without(ids, a.place));
      assert [] + RemoveFrom(hand, hand[a.place]) == RemoveFrom(hand, hand[a.place]);
    }
  }

  lemma CardsAdded(root: Pos, pos: Pos, b: Board, a: Act)
    requires Shows(root, pos, b) && Can(b, a) && !a.Hint? && StepLegal(pos, StepOf(pos, b, a), false)
    ensures MoreCards(pos, StepOf(pos, b, a)) == NewCards(b)
    ensures DrawnOrders(pos) == if b.turns == -1 then [|pos.st.deck|] else []
  {
    hide Sane, HandShown, CopiesIn, Missing;
  }

  /** The mover's hand and the deck after an act. */
  lemma MoverShown(root: Pos, pos: Pos, b: Board, a: Act)
    requires Shows(root, pos, b) && Can(b, a) && !a.Hint?
    ensures StepLegal(pos, StepOf(pos, b, a), false)
    ensures var next := After(pos, StepOf(pos, b, a), false);
            && |next.st.hands| == |b.hands| && next.st.hands == pos.st.hands[b.turn := next.st.hands[b.turn]]
            && HandShown(next.st.deck, next.st.hands[b.turn], Do(b, a).hands[b.turn])
            && next.st.deck == pos.st.deck + NewCards(b)
  {
    ActIsLegal(root, pos, b, a);
    if b.turns == -1 { DrawKnown(root, pos, b); }
    NewHandShown(b, a, pos.st.deck, pos.st.hands[b.turn]);
    CardsAdded(root, pos, b, a);
    HandsAfter(pos, StepOf(pos, b, a), false);
    hide After, StepLegal, Sane, HandShown, NewCards, Do, MoreCards, DrawnOrders, Missing;
  }

  function NewCards(b: Board): seq<Option<Id>> {
    if b.turns == -1 && b.draws != [] then [Some(b.draws[0])] else if b.noted then [] else [None]
  }

  /** Everything but the hands after an act. */
  lemma TableShown(root: Pos, pos: Pos, b: Board, a: Act)
    requires Shows(root, pos, b) && Can(b, a) && StepLegal(pos, StepOf(pos, b, a), false)
    ensures var (next, c) := (After(pos, StepOf(pos, b, a), false), Do(b, a));
            && next.st.playStacks == c.stacks && next.st.maxRanks == c.maxRanks && next.st.clueTokens == c.tokens
            && next.st.endgameTurns == c.turns && next.turn == c.turn && next.st.cardsLeft == |c.draws|
            && next.st.cardOrder + 1 == |root.st.deck| + |c.drawn|
  {
    hide Sane, CopiesIn, Missing;
    if !a.Hint? {
      var o := pos.st.hands[b.turn][a.place];
      assert HandShown(pos.st.deck, pos.st.hands[b.turn], b.hands[b.turn]);
      assert pos.st.deck[o] == Face(b.hands[b.turn][a.place]);
    }
  }

  lemma DrawsShown(root: Pos, pos: Pos, b: Board, a: Act, id: Id)
    requires Shows(root, pos, b) && Can(b, a) && StepLegal(pos, StepOf(pos, b, a), false)
    ensures Missing(After(pos, StepOf(pos, b, a), false).remaining, id) >= multiset(Do(b, a).draws)[id]
  {
    MissingAfter(pos, StepOf(pos, b, a), false, id);
    hide After, Sane, StepLegal;
    if !a.Hint? && b.turns == -1 {
      assert b.draws == [b.draws[0]] + b.draws[1..];
    }
  }

  lemma LeftShown(root: Pos, pos: Pos, b: Board, a: Act)
    requires Shows(root, pos, b) && Can(b, a) && StepLegal(pos, StepOf(pos, b, a), false)
    ensures After(pos, StepOf(pos, b, a), false).remaining == Left(root.remaining, Do(b, a).drawn)
  {
    hide Missing, CopiesIn, HandShown;
    if !a.Hint? && b.turns == -1 {
      assert (b.drawn + [b.draws[0]])[..|b.drawn|] == b.drawn;
    }
  }

  /** Cards that can be drawn are known. */
  lemma DrawKnown(root: Pos, pos: Pos, b: Board)
    requires Shows(root, pos, b) && b.draws != []
    ensures b.draws[0].rank > 0
  {
    assert b.draws[0] in multiset(b.draws);
    MissingPositive(pos.remaining, b.draws[0]);
  }

  lemma HandsStay(deck: seq<Option<Id>>, more: seq<Option<Id>>, hands: seq<seq<Order>>, shown: seq<seq<Id>>, turn: nat,
                  hands': seq<seq<Order>>, shown': seq<seq<Id>>)
    requires |hands| == |shown| == |hands'| == |shown'| && turn < |hands|
    requires hands' == hands[turn := hands'[turn]] && shown' == shown[turn := shown'[turn]]
    requires (forall p | 0 <= p < |hands| :: HandShown(deck, hands[p], shown[p])) && HandShown(deck + more, hands'[turn], shown'[turn])
    ensures forall p | 0 <= p < |hands'| :: HandShown(deck + more, hands'[p], shown'[p])
  {
    hide HandShown;
    forall p | 0 <= p < |hands|
      ensures HandShown(deck + more, hands'[p], shown'[p])
    {
      if p != turn { ShownLonger(deck, more, hands[p], shown[p]); }
    }
  }

  lemma DeckNext(root: Pos, b: Board, a: Act, deck: seq<Option<Id>>)
    requires Can(b, a) && !a.Hint? && (b.noted ==> b.turns != -1)
    requires deck == root.st.deck + Named(b.drawn) + (if b.noted then [None] else [])
    ensures deck + NewCards(b) == root.st.deck + Named(Do(b, a).drawn) + (if Do(b, a).noted then [None] else [])
    ensures Do(b, a).noted ==> Do(b, a).turns != -1
  {
    if b.turns == -1 {
      assert Named(b.drawn + [b.draws[0]]) == Named(b.drawn) + [Some(b.draws[0])];
    }
  }

  lemma HandsChange(b: Board, a: Act)
    requires Can(b, a) && !a.Hint?
    ensures |Do(b, a).hands| == |b.hands| && Do(b, a).hands == b.hands[b.turn := Do(b, a).hands[b.turn]]
  {
  }

  /** A step of the search for every act on the board. */
  lemma ActShown(root: Pos, pos: Pos, b: Board, a: Act)
    requires Shows(root, pos, b) && Can(b, a)
    ensures StepLegal(pos, StepOf(pos, b, a), false) && Shows(root, After(pos, StepOf(pos, b, a), false), Do(b, a))
  {
    ActIsLegal(root, pos, b, a);
    var s := StepOf(pos, b, a);
    var next, c := After(pos, s, false), Do(b, a);
    SaneAfter(pos, s, false);
    TableShown(root, pos, b, a);
    forall id
      ensures Missing(next.remaining, id) >= multiset(c.draws)[id]
    {
      DrawsShown(root, pos, b, a, id);
    }
    LeftShown(root, pos, b, a);
    hide Left;
    if a.Hint? {
      assert next.st.hands == pos.st.hands && next.st.deck == pos.st.deck;
      hide StepLegal, After, Sane, HandShown, Missing;
    } else {
      MoverShown(root, pos, b, a);
      HandsChange(b, a);
      DeckNext(root, b, a, pos.st.deck);
      hide StepLegal, After, Sane, Can, Do, HandShown, Missing, StepOf;
      HandsStay(pos.st.deck, NewCards(b), pos.st.hands, b.hands, b.turn, next.st.hands, c.hands);
    }
  }

  // ----- Scripts and paths -----

  predicate Runs(b: Board, script: seq<Act>)
    decreases |script|
  {
    script != [] ==> Can(b, script[0]) && Runs(Do(b, script[0]), script[1..])
  }

  function Outcome(b: Board, script: seq<Act>): Board
    requires Runs(b, script)
    decreases |script|
  {
    if script == [] then b else Outcome(Do(b, script[0]), script[1..])
  }

  /** The path of the search's own moves leads from pos to target. */
  ghost predicate Leads(pos: Pos, path: seq<Step>, target: Pos)
    decreases |path|
  {
    if path == [] then pos == target
    else StepLegal(pos, path[0], false) && Leads(After(pos, path[0], false), path[1..], target)
  }

  /** The search goes along the path: no position on it is won or pruned. */
  ghost predicate Visits(root: Pos, pos: Pos, path: seq<Step>, target: Pos)
    decreases |path|
  {
    && LooksUp(root, pos)
    && if path == [] then pos == target
       else StepLegal(pos, path[0], false) && Visits(root, After(pos, path[0], false), path[1..], target)
  }

  lemma {:induction false} ScriptLeads(root: Pos, pos: Pos, b: Board, script: seq<Act>) returns (path: seq<Step>, target: Pos)
    requires Shows(root, pos, b) && Runs(b, script)
    ensures Leads(pos, path, target) && Shows(root, target, Outcome(b, script))
    decreases |script|
  {
    if script == [] {
      path, target := [], pos;
    } else {
      ActShown(root, pos, b, script[0]);
      hide Shows, StepLegal, After, Can, Do;
      var s := StepOf(pos, b, script[0]);
      var rest;
      rest, target := ScriptLeads(root, After(pos, s, false), Do(b, script[0]), script[1..]);
      path := [s] + rest;
      assert path[1..] == rest;
    }
  }

  lemma {:induction false} LeadsWins(pos: Pos, path: seq<Step>, target: Pos)
    requires Leads(pos, path, target) && CanWin(target, false)
    ensures CanWin(pos, false)
    decreases |path|
  {
    hide CanWin, StepLegal, After;
    if path != [] {
      LeadsWins(After(pos, path[0], false), path[1..], target);
      CanWinUnfold(pos, false);
    }
  }

  /** A script that completes all stacks shows that the position can be won. */
  lemma ScriptWins(root: Pos, pos: Pos, b: Board, script: seq<Act>)
    requires Shows(root, pos, b) && Runs(b, script) && Outcome(b, script).stacks == b.maxRanks == Outcome(b, script).maxRanks
    ensures CanWin(pos, false)
  {
    var path, target := ScriptLeads(root, pos, b, script);
    assert Won(target.st);
    hide Shows, Leads, CanWin;
    CanWinUnfold(target, false);
    LeadsWins(pos, path, target);
  }

  lemma WonStays(pos: Pos, s: Step)
    requires Sane(pos) && StepLegal(pos, s, false) && Won(pos.st)
    ensures Won(After(pos, s, false).st)
  {
    SaneAfter(pos, s, false);
    ScoreAfter(pos, s, false);
    ScoreBelow(After(pos, s, false));
  }

  lemma NotPruned(root: Pos, pos: Pos)
    requires From(root, pos) && CanWin(pos, false) && !Won(pos.st)
    ensures LooksUp(root, pos)
  {
    hide CanWin;
    ScoreBelow(pos);
    if Unwinnable(pos.st, pos.turn) { PruningIsSound(pos, false); }
  }

  /** On the way to a position that can still be won nothing is won or pruned. */
  lemma {:induction false} WinningPathVisited(root: Pos, pos: Pos, path: seq<Step>, target: Pos)
    requires From(root, pos) && Leads(pos, path, target) && CanWin(target, false) && !Won(target.st)
    ensures Visits(root, pos, path, target) && !Won(pos.st)
    decreases |path|
  {
    LeadsWins(pos, path, target);
    if path != [] {
      var next := After(pos, path[0], false);
      FromAfter(root, pos, path[0], false);
      if Won(pos.st) { WonStays(pos, path[0]); }
      hide From, CanWin, StepLegal, After, Won, LooksUp;
      WinningPathVisited(root, next, path[1..], target);
    }
    hide Leads, Visits, From, CanWin, Won;
    NotPruned(root, pos);
  }

  lemma {:induction false} VisitsThen(root: Pos, pos: Pos, path: seq<Step>, mid: Pos, s: Step)
    requires Visits(root, pos, path, mid) && StepLegal(mid, s, false) && LooksUp(root, After(mid, s, false))
    ensures Visits(root, pos, path + [s], After(mid, s, false))
    decreases |path|
  {
    hide LooksUp, StepLegal, After;
    if path == [] {
      assert ([] + [s])[1..] == [];
      assert Visits(root, After(mid, s, false), [], After(mid, s, false));
    } else {
      assert (path + [s])[1..] == path[1..] + [s];
      VisitsThen(root, After(pos, path[0], false), path[1..], mid, s);
    }
  }

  // ----- Keys -----

  function Joined(hands: seq<seq<Id>>): seq<Id> {
    if hands == [] then [] else hands[0] + Joined(hands[1..])
  }

  lemma {:induction false} FlatShown(deck: seq<Option<Id>>, hands: seq<seq<Order>>, shown: seq<seq<Id>>)
    requires |hands| == |shown| && forall p | 0 <= p < |hands| :: HandShown(deck, hands[p], shown[p])
    ensures FlatIds(deck, hands) == Faces(Joined(shown))
  {
    if hands != [] {
      forall p | 0 <= p < |hands[1..]|
        ensures HandShown(deck, hands[1..][p], shown[1..][p])
      {
        assert hands[1..][p] == hands[p + 1] && shown[1..][p] == shown[p + 1];
      }
      FlatShown(deck, hands[1..], shown[1..]);
      assert CardIds(deck, hands[0]) == Faces(shown[0]);
      assert Faces(shown[0] + Joined(shown[1..])) == Faces(shown[0]) + Faces(Joined(shown[1..]));
    }
  }

  /** What the key lists after the cards that were drawn. */
  function Tail(b: Board): seq<Option<Id>> {
    (if b.noted then [None] else []) + Faces(Joined(b.hands))
  }

  predicate SameKey(a: Board, b: Board) {
    && a.drawn == b.drawn && Tail(a) == Tail(b) && a.tokens == b.tokens && a.turns == b.turns && a.turn == b.turn
    && a.draws == b.draws == []
  }

  lemma KeyShown(root: Pos, x: Pos, a: Board, y: Pos, b: Board)
    requires Shows(root, x, a) && Shows(root, y, b) && SameKey(a, b)
    ensures KeyOf(x) == KeyOf(y)
  {
    KeyCards(root, x, a);
    KeyCards(root, y, b);
    hide HandShown, FlatIds, Left, Tail, Named;
  }

  lemma KeyCards(root: Pos, pos: Pos, b: Board)
    requires Shows(root, pos, b)
    ensures KeyOf(pos).cards == root.st.deck + Named(b.drawn) + Tail(b)
  {
    FlatShown(pos.st.deck, pos.st.hands, b.hands);
    hide HandShown, FlatIds, Left, Named, Faces;
  }

  // ----- Two turns left -----

  /** The player holds the useful identity and no other. */
  ghost predicate OneUseful(st: State, p: nat, id: Id)
    requires st.WellFormed()
  {
    && p < |st.hands| && st.ValidId(id) && !Void(st, p)
    && forall o | o in st.hands[p] :: o < |st.deck| && (st.deck[o].Some? ==> st.deck[o].value == id || st.BasicTrash(st.deck[o].value))
  }

  lemma MustPlayIs(st: State, p: nat, id: Id, k: nat)
    requires st.WellFormed() && OneUseful(st, p, id) && k < |MustPlays(st, p)|
    ensures MustPlays(st, p)[k] == id
  {
    var i := MustPlays(st, p)[k];
    assert i in MustPlays(st, p) && MustPlay(st, st.hands[p], i);
    var j :| 0 <= j < |st.hands[p]| && st.hands[p][j] < |st.deck| && st.deck[st.hands[p][j]] == Some(i);
    assert st.hands[p][j] in st.hands[p];
  }

  lemma OneMustPlay(st: State, p: nat, id: Id)
    requires st.WellFormed() && OneUseful(st, p, id)
    ensures !DoubleMust(st, p)
  {
    if |MustPlays(st, p)| > 1 {
      MustPlayIs(st, p, id, 0);
      MustPlayIs(st, p, id, 1);
    }
  }

  /** Two turns and two points are left, but both players can only play the same card. */
  ghost predicate Stuck(pos: Pos, id: Id) {
    && Sane(pos) && pos.st.endgameTurns == 2 && pos.st.NumPlayers() >= 3 && pos.st.cardsLeft == 0
    && pos.st.Score() + 2 == pos.st.MaxScore()
    && OneUseful(pos.st, pos.turn, id) && OneUseful(pos.st, pos.st.NextPlayer(pos.turn), id)
  }

  lemma StuckNotPruned(pos: Pos, id: Id)
    requires Stuck(pos, id)
    ensures !Won(pos.st) && !Unwinnable(pos.st, pos.turn)
  {
    var n := pos.st.NumPlayers();
    SeatValue(pos.turn, 0, n);
    SeatValue(pos.turn, 1, n);
    assert Seat(pos.turn, 0, n) == pos.turn && Seat(pos.turn, 1, n) == pos.st.NextPlayer(pos.turn) by { SeatHere(pos.turn, n); }
    assert Ahead(pos.st, pos.turn, 0) == 0 && Ahead(pos.st, pos.turn, 1) == 1 && Ahead(pos.st, pos.turn, 2) == 2;
    OneMustPlay(pos.st, pos.turn, id);
    OneMustPlay(pos.st, pos.st.NextPlayer(pos.turn), id);
    hide Sane, OneUseful, DoubleMust, Seat;
    EnoughTurns(pos);
    forall i | 0 <= i < 2
      ensures !DoubleMust(pos.st, Seat(pos.turn, i, n))
    {
      if i == 0 {} else { assert i == 1; }
    }
  }

  lemma SeatHere(t: nat, n: nat)
    requires t < n
    ensures Seat(t, 0, n) == t && Seat(t, 1, n) == (t + 1) % n
  {
    SeatNext(t, 0, n);
  }

  /** After any step at most one point has been made, and the other player's cards fit no stack. */
  lemma StuckStep(pos: Pos, id: Id, s: Step)
    requires Stuck(pos, id) && StepLegal(pos, s, false)
    ensures After(pos, s, false).st.WellFormed()
    ensures var next := After(pos, s, false); next.st.endgameTurns == 1 && next.st.Score() < next.st.MaxScore()
    ensures s.move.PlayCard? ==> var next := After(pos, s, false);
              next.turn < |next.st.hands| && forall o | o in Hand(next) :: !PlayableCard(next.st, o)
  {
    var next := After(pos, s, false);
    SaneAfter(pos, s, false);
    ScoreAfter(pos, s, false);
    if s.move.PlayCard? {
      assert pos.st.deck[s.move.order] == Some(id);
      assert next.turn == pos.st.NextPlayer(pos.turn) != pos.turn by { NextIsOther(pos.turn, pos.st.NumPlayers()); }
      assert next.st.hands[next.turn] == pos.st.hands[next.turn];
      forall o | o in Hand(next)
        ensures !PlayableCard(next.st, o)
      {
        assert next.st.deck[o] == pos.st.deck[o];
        if PlayableCard(next.st, o) {
          UselessNow(pos, next, id, o);
          PlayedUseful(next, o);
        }
      }
    }
  }

  lemma UselessNow(pos: Pos, next: Pos, id: Id, o: Order)
    requires pos.st.WellFormed() && next.st.WellFormed() && o < |pos.st.deck| && o < |next.st.deck| && next.st.deck[o] == pos.st.deck[o]
    requires pos.st.deck[o].Some? && (pos.st.deck[o].value == id || pos.st.BasicTrash(pos.st.deck[o].value))
    requires pos.st.ValidId(id) && next.st.NumSuits() == pos.st.NumSuits() && next.st.maxRanks == pos.st.maxRanks
    requires next.st.playStacks == pos.st.playStacks[id.suit := id.rank] && pos.st.playStacks[id.suit] < id.rank
    requires PlayableCard(next.st, o)
    ensures !Useful(next.st, next.st.deck[o].value)
  {
  }

  lemma NextIsOther(t: nat, n: nat)
    requires t < n && n >= 2
    ensures (t + 1) % n != t && (t + 1) % n < n
  {
    if t + 1 < n { ModSmall(t + 1, n); }
  }

  lemma EndedWon(pos: Pos)
    requires pos.st.endgameTurns == 0 && CanWin(pos, false)
    ensures Won(pos.st)
  {
    CanWinUnfold(pos, false);
  }

  lemma SecondStep(next: Pos, t: Step)
    requires StepLegal(next, t, false) && next.st.endgameTurns == 1 && next.turn < |next.st.hands|
    requires next.st.Score() + 1 == next.st.MaxScore() ==> forall o | o in Hand(next) :: !PlayableCard(next.st, o)
    requires next.st.Score() < next.st.MaxScore()
    ensures After(next, t, false).st.endgameTurns == 0 && !Won(After(next, t, false).st)
  {
    ScoreAfter(next, t, false);
  }

  /** The two points cannot both be made. */
  lemma StuckLoses(pos: Pos, id: Id)
    requires Stuck(pos, id)
    ensures !CanWin(pos, false)
  {
    assert !Won(pos.st);
    CanWinUnfold(pos, false);
    if s :| StepLegal(pos, s, false) && CanWin(After(pos, s, false), false) {
      StuckStep(pos, id, s);
      var next := After(pos, s, false);
      ScoreAfter(pos, s, false);
      hide Sane, CanWin, After, StepLegal;
      CanWinUnfold(next, false);
      var t :| StepLegal(next, t, false) && CanWin(After(next, t, false), false);
      StillShaped(next, t);
      SecondStep(next, t);
      EndedWon(After(next, t, false));
    }
  }

  lemma StillShaped(pos: Pos, s: Step)
    requires StepLegal(pos, s, false)
    ensures pos.turn < |pos.st.hands|
  {
  }

  // ----- Collisions -----

  function NextTurn(b: Board): nat
    requires |b.hands| > 0
  {
    (b.turn + 1) % |b.hands|
  }

  /** On the hand only id is useful. */
  predicate OnlyUseful(b: Board, hand: seq<Id>, id: Id) {
    id in hand && forall x | x in hand :: x == id || Spent(b, x)
  }

  predicate StuckBoard(b: Board, id: Id) {
    && b.turns == 2 && |b.hands| >= 3 && b.turn < |b.hands| && b.draws == []
    && Sum(b.stacks) + 2 == Sum(b.maxRanks) && !Spent(b, id)
    && OnlyUseful(b, b.hands[b.turn], id) && OnlyUseful(b, b.hands[NextTurn(b)], id)
  }

  lemma OnlyUsefulShown(root: Pos, pos: Pos, b: Board, p: nat, id: Id)
    requires Shows(root, pos, b) && p < |b.hands| && OnlyUseful(b, b.hands[p], id) && !Spent(b, id)
    ensures OneUseful(pos.st, p, id)
  {
    var hand, ids := pos.st.hands[p], b.hands[p];
    assert HandShown(pos.st.deck, hand, ids);
    var i :| 0 <= i < |ids| && ids[i] == id;
    assert pos.st.deck[hand[i]] == Some(id) && pos.st.ValidId(id) && hand[i] in hand;
    SpentIsTrash(root, pos, b, id);
    forall o | o in hand
      ensures o < |pos.st.deck| && (pos.st.deck[o].Some? ==> pos.st.deck[o].value == id || pos.st.BasicTrash(pos.st.deck[o].value))
    {
      var j :| 0 <= j < |hand| && hand[j] == o;
      assert ids[j] in ids && pos.st.deck[o] == Face(ids[j]);
      if ids[j].rank > 0 { SpentIsTrash(root, pos, b, ids[j]); }
    }
  }

  lemma StuckShown(root: Pos, pos: Pos, b: Board, id: Id)
    requires Shows(root, pos, b) && StuckBoard(b, id)
    ensures Stuck(pos, id)
  {
    OnlyUsefulShown(root, pos, b, b.turn, id);
    OnlyUsefulShown(root, pos, b, NextTurn(b), id);
    hide HandShown, OneUseful, OnlyUseful, Spent;
  }

  /** Some script leads from one board to the other. */
  ghost predicate Reaches(b: Board, c: Board) {
    exists script :: Runs(b, script) && Outcome(b, script) == c
  }

  lemma {:induction false} ScriptThen(b: Board, script: seq<Act>, more: seq<Act>)
    requires Runs(b, script) && Runs(Outcome(b, script), more)
    ensures Runs(b, script + more) && Outcome(b, script + more) == Outcome(Outcome(b, script), more)
    decreases |script|
  {
    if script == [] {
      assert [] + more == more;
    } else {
      assert (script + more)[1..] == script[1..] + more;
      ScriptThen(Do(b, script[0]), script[1..], more);
    }
  }

  lemma ReachesThen(b: Board, c: Board, d: Board)
    requires Reaches(b, c) && Reaches(c, d)
    ensures Reaches(b, d)
  {
    var s :| Runs(b, s) && Outcome(b, s) == c;
    var t :| Runs(c, t) && Outcome(c, t) == d;
    ScriptThen(b, s, t);
  }

  /** After k players have given clues. */
  function Waiting(b: Board, k: nat): Board
    requires b.turn < |b.hands|
  {
    b.(tokens := b.tokens - k, turns := if b.turns == -1 then -1 else b.turns - k, turn := Seat(b.turn, k, |b.hands|))
  }

  lemma {:induction false} Wait(b: Board, k: nat)
    requires b.turn < |b.hands| && k <= b.tokens && (b.turns == -1 || k <= b.turns) && k <= |b.hands|
    ensures Reaches(b, Waiting(b, k))
  {
    if k == 0 {
      SeatHere(b.turn, |b.hands|);
      assert Runs(b, []) && Outcome(b, []) == Waiting(b, 0);
    } else {
      Wait(b, k - 1);
      var c := Waiting(b, k - 1);
      WaitOne(b, k);
      hide Reaches, Waiting;
      ReachesThen(b, c, Waiting(b, k));
    }
  }

  lemma OneAct(b: Board, a: Act)
    requires Can(b, a)
    ensures Reaches(b, Do(b, a))
  {
    hide Can, Do;
    assert [a][1..] == [];
    assert Runs(Do(b, a), []) && Outcome(Do(b, a), []) == Do(b, a);
    assert Runs(b, [a]) && Outcome(b, [a]) == Do(b, a);
  }

  lemma WaitOne(b: Board, k: nat)
    requires b.turn < |b.hands| && 0 < k <= b.tokens && (b.turns == -1 || k <= b.turns) && k <= |b.hands|
    ensures Reaches(Waiting(b, k - 1), Waiting(b, k))
  {
    var c := Waiting(b, k - 1);
    SeatAdds(b.turn, k - 1, |b.hands|);
    assert Can(c, Hint);
    hide Seat;
    assert Do(c, Hint) == Waiting(b, k);
    hide Can, Do, Waiting, Reaches;
    OneAct(c, Hint);
  }

  lemma SeatAdds(t: nat, i: nat, n: nat)
    requires t < n && i < n
    ensures (Seat(t, i, n) + 1) % n == Seat(t, i + 1, n)
  {
    SeatValue(t, i, n);
    SeatValue(t, i + 1, n);
    if Seat(t, i, n) + 1 < n { ModSmall(Seat(t, i, n) + 1, n); }
  }

  /** The board c is what b becomes after k clues and an act. */
  ghost predicate Becomes(b: Board, k: nat, a: Act, c: Board) {
    && b.turn < |b.hands| && k <= b.tokens && (b.turns == -1 || k <= b.turns) && k <= |b.hands| && !a.Hint? && Can(Waiting(b, k), a)
    && var p := Seat(b.turn, k, |b.hands|);
       var hand := b.hands[p];
       var id := hand[a.place];
       && |c.hands| == |b.hands| && (forall q | 0 <= q < |b.hands| && q != p :: c.hands[q] == b.hands[q])
       && c.hands[p] == (if b.turns == -1 then [b.draws[0]] else []) + Without(hand, a.place)
       && c.stacks == (if a.Put? then b.stacks[id.suit := id.rank] else b.stacks) && c.maxRanks == b.maxRanks
       && c.tokens == TokensAfter(Waiting(b, k), a) && c.turn == (p + 1) % |b.hands|
       && c.turns == (if b.turns != -1 then b.turns - k - 1 else if |b.draws| == 1 then |b.hands| else -1)
       && c.draws == (if b.turns == -1 then b.draws[1..] else b.draws)
       && c.drawn == (if b.turns == -1 then b.drawn + [b.draws[0]] else b.drawn)
       && c.noted == (b.noted || b.turns != -1)
  }

  lemma Go(b: Board, k: nat, a: Act, c: Board)
    requires Becomes(b, k, a, c)
    ensures Reaches(b, c)
  {
    var w := Waiting(b, k);
    var d := Do(w, a);
    assert c.hands[w.turn] == d.hands[w.turn] by {
      if b.turns != -1 { assert [] + Without(b.hands[w.turn], a.place) == Without(b.hands[w.turn], a.place); }
    }
    assert c.hands == d.hands;
    assert c == d;
    hide Becomes, Waiting, Can, Do, Reaches;
    OneAct(w, a);
    Wait(b, k);
    ReachesThen(b, w, c);
  }

  lemma GoOn(start: Board, b: Board, k: nat, a: Act, c: Board)
    requires Reaches(start, b) && Becomes(b, k, a, c)
    ensures Reaches(start, c)
  {
    hide Reaches, Becomes;
    Go(b, k, a, c);
    ReachesThen(start, b, c);
  }

  lemma Here(b: Board)
    ensures Reaches(b, b)
  {
    assert Runs(b, []) && Outcome(b, []) == b;
  }

  /** Every stack is complete. */
  predicate Finished(b: Board) { b.stacks == b.maxRanks }

  predicate Unfinished(b: Board) { Sum(b.stacks) != Sum(b.maxRanks) }

  /** The search reaches both positions, which share a key, but only the second can be won. */
  ghost predicate Collide(root: Pos, x: Pos, y: Pos) {
    && (exists p :: Visits(root, root, p, x)) && (exists q :: Visits(root, root, q, y))
    && KeyOf(x) == KeyOf(y) && x.st.endgameTurns == 2 && LooksUp(root, x) && LooksUp(root, y)
    && !CanWin(x, false) && CanWin(y, false)
  }

  lemma VisitedEnd(root: Pos, pos: Pos, path: seq<Step>, target: Pos)
    requires Visits(root, pos, path, target)
    ensures LooksUp(root, target)
    decreases |path|
  {
    hide LooksUp, StepLegal, After;
    if path != [] { VisitedEnd(root, After(pos, path[0], false), path[1..], target); }
  }

  /** A board that can still be completed is a position that the search goes on from. */
  lemma BoardVisited(root: Pos, b: Board, c: Board, win: Board) returns (path: seq<Step>, target: Pos)
    requires Shows(root, root, b) && Reaches(b, c) && Reaches(c, win) && Finished(win) && win.maxRanks == c.maxRanks && Unfinished(c)
    ensures Visits(root, root, path, target) && Shows(root, target, c) && CanWin(target, false)
  {
    var s :| Runs(b, s) && Outcome(b, s) == c;
    var t :| Runs(c, t) && Outcome(c, t) == win;
    path, target := ScriptLeads(root, root, b, s);
    ScriptWins(root, target, c, t);
    assert !Won(target.st) && Sane(root);
    FromItself(root);
    hide Shows, Leads, Visits, CanWin, From, Won, Sane, Unfinished, Reaches;
    WinningPathVisited(root, root, path, target);
  }

  /** A board that can still be completed, and a last act that spoils it. */
  lemma SpoiledVisited(root: Pos, b: Board, mid: Board, win: Board, last: Act, id: Id) returns (path: seq<Step>, target: Pos)
    requires Shows(root, root, b) && Reaches(b, mid) && Reaches(mid, win) && Finished(win) && win.maxRanks == mid.maxRanks && Unfinished(mid)
    requires Can(mid, last) && StuckBoard(Do(mid, last), id)
    ensures Visits(root, root, path, target) && Shows(root, target, Do(mid, last)) && Stuck(target, id) && LooksUp(root, target)
  {
    var p, m := BoardVisited(root, b, mid, win);
    ActShown(root, m, mid, last);
    var s := StepOf(m, mid, last);
    path, target := p + [s], After(m, s, false);
    StuckShown(root, target, Do(mid, last), id);
    hide Shows, StuckBoard, Visits, CanWin, StepLegal, After, Do, Can, Runs, Stuck, LooksUp, Outcome, Reaches;
    VisitedEnd(root, root, p, m);
    StuckLooksUp(root, m, s, id);
    VisitsThen(root, root, p, m, s);
  }

  /** Two boards with one key: the first is spoiled by its last act, the second can still be completed. */
  lemma BoardsCollide(root: Pos, b: Board, mid: Board, midWin: Board, last: Act, two: Board, twoWin: Board, id: Id) returns (x: Pos, y: Pos)
    requires Shows(root, root, b)
    requires Reaches(b, mid) && Reaches(mid, midWin) && Finished(midWin) && midWin.maxRanks == mid.maxRanks && Unfinished(mid)
    requires Reaches(b, two) && Reaches(two, twoWin) && Finished(twoWin) && twoWin.maxRanks == two.maxRanks && Unfinished(two)
    requires Can(mid, last) && SameKey(Do(mid, last), two) && StuckBoard(Do(mid, last), id)
    ensures Collide(root, x, y)
  {
    hide Reaches, Visits, CanWin, StepLegal, After, Do, Can, Runs, LooksUp, Outcome;
    var p, q;
    p, x := SpoiledVisited(root, b, mid, midWin, last, id);
    q, y := BoardVisited(root, b, two, twoWin);
    KeyShown(root, x, Do(mid, last), y, two);
    assert x.st.endgameTurns == 2;
    hide Shows, StuckBoard, SameKey;
    StuckLoses(x, id);
    VisitedEnd(root, root, q, y);
  }

  lemma StuckLooksUp(root: Pos, pos: Pos, s: Step, id: Id)
    requires LooksUp(root, pos) && StepLegal(pos, s, false) && Stuck(After(pos, s, false), id)
    ensures LooksUp(root, After(pos, s, false))
  {
    hide Stuck, Unwinnable;
    FromAfter(root, pos, s, false);
    StuckNotPruned(After(pos, s, false), id);
  }
}
