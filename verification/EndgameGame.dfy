// The game that `winnable_simpler` searches: positions, moves, draws and winning runs.
module EndgameGame {
  import opened Cards
  import opened GameState
  import opened Table
  import opened EndgameSteps

  // ----- Counting copies -----

  function Copies(deck: seq<Option<Id>>, hand: seq<Order>, id: Id): nat {
    if hand == [] then 0
    else (if hand[0] < |deck| && deck[hand[0]] == Some(id) then 1 else 0) + Copies(deck, hand[1..], id)
  }

  function CopiesIn(deck: seq<Option<Id>>, hands: seq<seq<Order>>, id: Id): nat {
    if hands == [] then 0 else Copies(deck, hands[0], id) + CopiesIn(deck, hands[1..], id)
  }

  function Missing(remaining: seq<Remaining>, id: Id): nat {
    if remaining == [] then 0
    else (if remaining[0].id == id then remaining[0].missing else 0) + Missing(remaining[1..], id)
  }

  lemma {:induction false} CopiesAppend(deck: seq<Option<Id>>, a: seq<Order>, b: seq<Order>, id: Id)
    ensures Copies(deck, a + b, id) == Copies(deck, a, id) + Copies(deck, b, id)
  {
    if a == [] {
      assert a + b == b;
    } else {
      assert (a + b)[1..] == a[1..] + b;
      CopiesAppend(deck, a[1..], b, id);
    }
  }

  lemma {:induction false} CopiesExtend(deck: seq<Option<Id>>, more: seq<Option<Id>>, hand: seq<Order>, id: Id)
    requires forall o | o in hand :: o < |deck|
    ensures Copies(deck + more, hand, id) == Copies(deck, hand, id)
  {
    if hand != [] {
      assert hand[0] in hand && forall o | o in hand[1..] :: o in hand;
      CopiesExtend(deck, more, hand[1..], id);
    }
  }

  lemma {:induction false} CopiesZero(deck: seq<Option<Id>>, hand: seq<Order>, id: Id)
    ensures Copies(deck, hand, id) == 0 <==> forall o | o in hand :: !(o < |deck| && deck[o] == Some(id))
  {
    if hand != [] {
      CopiesZero(deck, hand[1..], id);
      assert hand == [hand[0]] + hand[1..];
    }
  }

  lemma CopiesRemove(deck: seq<Option<Id>>, hand: seq<Order>, o: Order, id: Id)
    requires o in hand && o < |deck|
    ensures Copies(deck, RemoveFrom(hand, o), id) == Copies(deck, hand, id) - if deck[o] == Some(id) then 1 else 0
  {
    var i := IndexOf(hand, o);
    assert hand == hand[..i] + ([o] + hand[i + 1..]);
    CopiesAppend(deck, hand[..i], [o] + hand[i + 1..], id);
    CopiesAppend(deck, [o], hand[i + 1..], id);
    CopiesAppend(deck, hand[..i], hand[i + 1..], id);
  }

  lemma {:induction false} CopiesInUpdate(deck: seq<Option<Id>>, hands: seq<seq<Order>>, p: nat, hand: seq<Order>, id: Id)
    requires p < |hands|
    ensures CopiesIn(deck, hands[p := hand], id) == CopiesIn(deck, hands, id) - Copies(deck, hands[p], id) + Copies(deck, hand, id)
  {
    if p == 0 {
      assert hands[p := hand][1..] == hands[1..];
    } else {
      assert hands[p := hand][1..] == hands[1..][p - 1 := hand];
      CopiesInUpdate(deck, hands[1..], p - 1, hand, id);
    }
  }

  lemma {:induction false} CopiesInExtend(deck: seq<Option<Id>>, more: seq<Option<Id>>, hands: seq<seq<Order>>, id: Id)
    requires forall h, o | h in hands && o in h :: o < |deck|
    ensures CopiesIn(deck + more, hands, id) == CopiesIn(deck, hands, id)
  {
    if hands != [] {
      assert hands[0] in hands;
      CopiesExtend(deck, more, hands[0], id);
      CopiesInExtend(deck, more, hands[1..], id);
    }
  }

  lemma {:induction false} CopiesInAtLeast(deck: seq<Option<Id>>, hands: seq<seq<Order>>, p: nat, id: Id)
    requires p < |hands|
    ensures Copies(deck, hands[p], id) <= CopiesIn(deck, hands, id)
    ensures forall q | 0 <= q < |hands| && q != p :: Copies(deck, hands[p], id) + Copies(deck, hands[q], id) <= CopiesIn(deck, hands, id)
  {
    if p == 0 {
      forall q | 0 < q < |hands|
        ensures Copies(deck, hands[q], id) <= CopiesIn(deck, hands[1..], id)
      {
        assert hands[1..][q - 1] == hands[q];
        CopiesInAtLeast(deck, hands[1..], q - 1, id);
      }
    } else {
      assert hands[1..][p - 1] == hands[p];
      CopiesInAtLeast(deck, hands[1..], p - 1, id);
      forall q | 0 <= q < |hands| && q != p
        ensures Copies(deck, hands[p], id) + Copies(deck, hands[q], id) <= CopiesIn(deck, hands, id)
      {
        if q > 0 { assert hands[1..][q - 1] == hands[q]; }
      }
    }
  }

  // ----- remove_remaining -----

  ghost predicate RemainingOk(remaining: seq<Remaining>) {
    && (forall r | r in remaining :: r.missing >= 1)
    && (forall i, j | 0 <= i < j < |remaining| :: remaining[i].id != remaining[j].id)
  }

  predicate Drawable(remaining: seq<Remaining>, id: Id) {
    exists r | r in remaining :: r.id == id
  }

  /** One copy of id fewer: its first entry is decremented, or dropped when it was the last copy. */
  function RemoveRemaining(remaining: seq<Remaining>, id: Id): (r: seq<Remaining>)
    requires Drawable(remaining, id) && forall r | r in remaining :: r.missing >= 1
  {
    if remaining[0].id == id then
      if remaining[0].missing == 1 then remaining[1..]
      else [remaining[0].(missing := remaining[0].missing - 1)] + remaining[1..]
    else
      assert Drawable(remaining[1..], id) by {
        var r :| r in remaining && r.id == id;
        assert r in remaining[1..];
      }
      [remaining[0]] + RemoveRemaining(remaining[1..], id)
  }

  lemma {:induction false} MissingPositive(remaining: seq<Remaining>, id: Id)
    requires forall r | r in remaining :: r.missing >= 1
    ensures Missing(remaining, id) > 0 <==> Drawable(remaining, id)
  {
    if remaining != [] {
      MissingPositive(remaining[1..], id);
      assert remaining == [remaining[0]] + remaining[1..];
      if remaining[0].id == id {
        assert remaining[0] in remaining;
      } else if Drawable(remaining, id) {
        var r :| r in remaining && r.id == id;
        assert r in remaining[1..];
      }
    }
  }

  /** Exactly one copy disappears. */
  lemma {:induction false} RemoveRemainingCounts(remaining: seq<Remaining>, id: Id, i: Id)
    requires (forall r | r in remaining :: r.missing >= 1) && Drawable(remaining, id)
    ensures Missing(RemoveRemaining(remaining, id), i) == Missing(remaining, i) - if i == id then 1 else 0
  {
    var next := RemoveRemaining(remaining, id);
    var rest := remaining[1..];
    assert remaining[0] in remaining;
    if remaining[0].id == id {
      if remaining[0].missing > 1 {
        assert next[1..] == rest;
      }
    } else {
      var r :| r in remaining && r.id == id;
      assert r in rest;
      RemoveRemainingCounts(rest, id, i);
      assert next[1..] == RemoveRemaining(rest, id);
    }
  }

  lemma {:induction false} RemoveRemainingEntries(remaining: seq<Remaining>, id: Id)
    requires (forall r | r in remaining :: r.missing >= 1) && Drawable(remaining, id)
    ensures forall r | r in RemoveRemaining(remaining, id) :: r.missing >= 1 && Drawable(remaining, r.id)
  {
    var rest := remaining[1..];
    assert remaining == [remaining[0]] + rest;
    assert Drawable(remaining, remaining[0].id);
    assert forall i :: Drawable(rest, i) ==> Drawable(remaining, i) by {
      forall i | Drawable(rest, i)
        ensures Drawable(remaining, i)
      {
        var r :| r in rest && r.id == i;
        assert r in remaining;
      }
    }
    if remaining[0].id == id {
      forall r | r in rest
        ensures Drawable(rest, r.id)
      {
      }
    } else {
      var r :| r in remaining && r.id == id;
      assert r in rest;
      RemoveRemainingEntries(rest, id);
    }
  }

  /** The list of remaining identities stays well-formed. */
  lemma {:induction false} RemoveRemainingOk(remaining: seq<Remaining>, id: Id)
    requires RemainingOk(remaining) && Drawable(remaining, id)
    ensures RemainingOk(RemoveRemaining(remaining, id))
  {
    RemoveRemainingEntries(remaining, id);
    var next := RemoveRemaining(remaining, id);
    var rest := remaining[1..];
    if remaining[0].id == id {
      assert forall i, j | 0 <= i < j < |next| :: next[i].id != next[j].id;
    } else {
      var r :| r in remaining && r.id == id;
      assert r in rest;
      RemoveRemainingOk(rest, id);
      RemoveRemainingEntries(rest, id);
      assert next[1..] == RemoveRemaining(rest, id);
      forall j | 0 < j < |next|
        ensures next[j].id != next[0].id
      {
        assert next[j] in RemoveRemaining(rest, id);
        var s :| s in rest && s.id == next[j].id;
        var k :| 0 <= k < |rest| && rest[k] == s;
        assert remaining[k + 1] == s;
      }
    }
  }

  // ----- Positions, moves and runs -----

  /** A state of the search: the table, whose turn it is and what may still be drawn. */
  datatype Pos = Pos(st: State, turn: nat, remaining: seq<Remaining>)

  /** A move, and the card drawn after it, if any. */
  datatype Step = Step(move: Move, draw: Option<Id>)

  /** What is needed for the search to be well-defined. */
  ghost predicate Shaped(pos: Pos) {
    && pos.st.WellFormed() && pos.turn < |pos.st.hands|
    && (forall h, o | h in pos.st.hands && o in h :: o < |pos.st.deck|)
    && (forall r | r in pos.remaining :: r.missing >= 1)
    && 0 <= pos.st.cardOrder + 1 <= |pos.st.deck|
    && (pos.st.cardsLeft == 0 <==> pos.st.endgameTurns != -1)
  }

  function Hand(pos: Pos): seq<Order>
    requires pos.turn < |pos.st.hands|
  {
    pos.st.hands[pos.turn]
  }

  predicate Discardable(st: State, o: Order)
    requires st.WellFormed()
  {
    o < |st.deck| && (st.deck[o].None? || st.BasicTrash(st.deck[o].value))
  }

  predicate PlayableCard(st: State, o: Order)
    requires st.WellFormed()
  {
    o < |st.deck| && st.deck[o].Some? && st.Playable(st.deck[o].value)
  }

  /** `hand.find(...)`: the card that the search considers discarding. */
  function FirstDiscardable(st: State, hand: seq<Order>): (r: Option<Order>)
    requires st.WellFormed()
    ensures r.Some? ==> r.value in hand && Discardable(st, r.value)
    ensures r.None? ==> forall o | o in hand :: !Discardable(st, o)
  {
    if hand == [] then None
    else if Discardable(st, hand[0]) then Some(hand[0])
    else FirstDiscardable(st, hand[1..])
  }

  /** The search's own moves; with any set, every discardable card may be discarded. */
  predicate MoveLegal(pos: Pos, m: Move, any: bool)
    requires pos.st.WellFormed() && pos.turn < |pos.st.hands|
  {
    match m
    case PlayCard(o) => o in Hand(pos) && PlayableCard(pos.st, o)
    case DiscardCard(o) =>
      if any then o in Hand(pos) && Discardable(pos.st, o) else FirstDiscardable(pos.st, Hand(pos)) == Some(o)
    case AnyClue => pos.st.clueTokens > 0
  }

  predicate DrawLegal(pos: Pos, m: Move, draw: Option<Id>) {
    if m.AnyClue? || pos.st.cardsLeft == 0 then draw.None?
    else draw.Some? && Drawable(pos.remaining, draw.value)
  }

  ghost predicate StepLegal(pos: Pos, s: Step, any: bool) {
    Shaped(pos) && !pos.st.Ended() && MoveLegal(pos, s.move, any) && DrawLegal(pos, s.move, s.draw)
  }

  lemma LegalCanAdvance(pos: Pos, s: Step, any: bool)
    requires StepLegal(pos, s, any)
    ensures CanAdvance(pos.st, pos.turn, s.move)
  {
    assert Hand(pos) in pos.st.hands;
  }

  ghost function After(pos: Pos, s: Step, any: bool): Pos
    requires StepLegal(pos, s, any)
  {
    LegalCanAdvance(pos, s, any);
    Pos(Advance(pos.st, pos.turn, s.move, s.draw),
        pos.st.NextPlayer(pos.turn),
        if s.draw.Some? then RemoveRemaining(pos.remaining, s.draw.value) else pos.remaining)
  }

  predicate Won(st: State) { st.Score() == st.MaxScore() }

  /** The path leads from pos to the maximum score. */
  ghost predicate Wins(pos: Pos, path: seq<Step>, any: bool)
    decreases |path|
  {
    if path == [] then Won(pos.st)
    else StepLegal(pos, path[0], any) && Wins(After(pos, path[0], any), path[1..], any)
  }

  /** Some run of moves and draws reaches the maximum score. No pruning. */
  ghost predicate CanWin(pos: Pos, any: bool) {
    exists path :: Wins(pos, path, any)
  }

  lemma CanWinUnfold(pos: Pos, any: bool)
    ensures CanWin(pos, any) <==>
      Won(pos.st) || exists s :: StepLegal(pos, s, any) && CanWin(After(pos, s, any), any)
  {
    if Won(pos.st) {
      assert Wins(pos, [], any);
    }
    if s :| StepLegal(pos, s, any) && CanWin(After(pos, s, any), any) {
      var path :| Wins(After(pos, s, any), path, any);
      assert ([s] + path)[1..] == path;
      assert Wins(pos, [s] + path, any);
    }
    if CanWin(pos, any) && !Won(pos.st) {
      var path :| Wins(pos, path, any);
      assert StepLegal(pos, path[0], any) && Wins(After(pos, path[0], any), path[1..], any);
      assert CanWin(After(pos, path[0], any), any);
    }
  }

  // ----- Consistent positions -----

  /** No identity occurs more often than there are copies. */
  ghost predicate NoExtraCopies(pos: Pos)
    requires pos.st.WellFormed()
  {
    forall id | pos.st.ValidId(id) ::
      CopiesIn(pos.st.deck, pos.st.hands, id) + Missing(pos.remaining, id) + pos.st.BaseCount(id) <= pos.st.CardCount(id)
  }

  /** Only identities of the variant occur. */
  ghost predicate Listed(pos: Pos) {
    && (forall o | 0 <= o < |pos.st.deck| && pos.st.deck[o].Some? :: pos.st.ValidId(pos.st.deck[o].value))
    && (forall r | r in pos.remaining :: pos.st.ValidId(r.id))
  }

  /** A suit that is capped below 5 has lost every copy of the next rank. */
  ghost predicate NoDeadRanks(pos: Pos)
    requires pos.st.WellFormed()
  {
    forall s | 0 <= s < pos.st.NumSuits() && pos.st.maxRanks[s] < MAX_RANK ::
      CopiesIn(pos.st.deck, pos.st.hands, Id(s, pos.st.maxRanks[s] + 1)) + Missing(pos.remaining, Id(s, pos.st.maxRanks[s] + 1)) == 0
  }

  ghost predicate StacksCapped(st: State)
    requires st.WellFormed()
  {
    forall s | 0 <= s < st.NumSuits() :: st.playStacks[s] <= st.maxRanks[s] <= MAX_RANK
  }

  ghost predicate Clock(st: State) {
    && -1 <= st.endgameTurns <= st.NumPlayers()
    && (st.endgameTurns == -1 ==> st.cardOrder + 1 == |st.deck|)
    && 0 <= st.clueTokens <= 8
  }

  ghost predicate Sane(pos: Pos) {
    && Shaped(pos) && Listed(pos) && RemainingOk(pos.remaining)
    && NoExtraCopies(pos) && NoDeadRanks(pos) && StacksCapped(pos.st) && Clock(pos.st)
  }

  /** How a step moves the copies of one identity. */
  lemma CopiesAfter(pos: Pos, s: Step, any: bool, id: Id)
    requires StepLegal(pos, s, any) && Clock(pos.st)
    ensures var next := After(pos, s, any);
            var used := if !s.move.AnyClue? && pos.st.deck[s.move.order] == Some(id) then 1 else 0;
            && CopiesIn(next.st.deck, next.st.hands, id)
                 == CopiesIn(pos.st.deck, pos.st.hands, id) - used + (if s.draw == Some(id) then 1 else 0)
            && Missing(next.remaining, id) == Missing(pos.remaining, id) - (if s.draw == Some(id) then 1 else 0)
  {
    MissingAfter(pos, s, any, id);
    if !s.move.AnyClue? {
      HandsAfter(pos, s, any);
      assert Hand(pos) in pos.st.hands;
      DrawnCopies(pos, s, any, id);
      hide After, Missing, CopiesIn, Copies, RemoveFrom, Drawable, Clock;
      CopiesMoved(pos.st.deck, MoreCards(pos, s), pos.st.hands, pos.turn, s.move.order, DrawnOrders(pos), id);
    }
  }

  lemma MissingAfter(pos: Pos, s: Step, any: bool, id: Id)
    requires StepLegal(pos, s, any)
    ensures Missing(After(pos, s, any).remaining, id) == Missing(pos.remaining, id) - (if s.draw == Some(id) then 1 else 0)
  {
    if s.draw.Some? {
      RemoveRemainingCounts(pos.remaining, s.draw.value, id);
    }
  }

  /** What a move of a card appends to the deck, and the order that enters the hand. */
  function MoreCards(pos: Pos, s: Step): seq<Option<Id>> {
    if pos.st.cardOrder + 1 == |pos.st.deck| then [s.draw] else []
  }

  function DrawnOrders(pos: Pos): seq<Order>
    requires pos.st.cardOrder + 1 >= 0
  {
    if pos.st.endgameTurns == -1 then [pos.st.cardOrder + 1] else []
  }

  lemma HandsAfter(pos: Pos, s: Step, any: bool)
    requires StepLegal(pos, s, any) && Clock(pos.st) && !s.move.AnyClue?
    ensures s.move.order in Hand(pos) && s.move.order < |pos.st.deck|
    ensures After(pos, s, any).st.deck == pos.st.deck + MoreCards(pos, s)
    ensures After(pos, s, any).st.hands == pos.st.hands[pos.turn := DrawnOrders(pos) + RemoveFrom(Hand(pos), s.move.order)]
  {
    assert Hand(pos) in pos.st.hands;
    assert [] + RemoveFrom(Hand(pos), s.move.order) == RemoveFrom(Hand(pos), s.move.order);
  }

  lemma DrawnCopies(pos: Pos, s: Step, any: bool, id: Id)
    requires StepLegal(pos, s, any) && Clock(pos.st) && !s.move.AnyClue?
    ensures Copies(pos.st.deck + MoreCards(pos, s), DrawnOrders(pos), id) == if s.draw == Some(id) then 1 else 0
  {
    var deck := pos.st.deck + MoreCards(pos, s);
    if pos.st.endgameTurns == -1 {
      var o := pos.st.cardOrder + 1;
      assert deck[o] == s.draw && [o][1..] == [];
      assert Copies(deck, [o], id) == (if s.draw == Some(id) then 1 else 0) + Copies(deck, [], id);
    } else {
      assert s.draw == None && Copies(deck, [], id) == 0;
    }
  }

  /** A card leaves a hand, the deck grows, and perhaps one of the new cards enters the hand. */
  lemma CopiesMoved(deck: seq<Option<Id>>, more: seq<Option<Id>>, hands: seq<seq<Order>>, p: nat, o: Order, drawn: seq<Order>, id: Id)
    requires p < |hands| && o in hands[p] && forall h, x | h in hands && x in h :: x < |deck|
    requires o < |deck|
    ensures CopiesIn(deck + more, hands[p := drawn + RemoveFrom(hands[p], o)], id)
            == CopiesIn(deck, hands, id) - (if deck[o] == Some(id) then 1 else 0) + Copies(deck + more, drawn, id)
  {
    var hand := RemoveFrom(hands[p], o);
    CopiesRemove(deck, hands[p], o, id);
    CopiesInUpdate(deck, hands, p, hand, id);
    RemovedSubset(hands[p], o);
    assert hands[p] in hands;
    assert forall h, x | h in hands[p := hand] && x in h :: x < |deck|;
    CopiesInExtend(deck, more, hands[p := hand], id);
    assert hands[p := drawn + hand] == hands[p := hand][p := drawn + hand];
    CopiesInUpdate(deck + more, hands[p := hand], p, drawn + hand, id);
    CopiesAppend(deck + more, drawn, hand, id);
  }

  lemma RemovedSubset(hand: seq<Order>, o: Order)
    requires o in hand
    ensures forall x | x in RemoveFrom(hand, o) :: x in hand
    ensures |RemoveFrom(hand, o)| == |hand| - 1
  {
  }

  lemma BaseAfter(pos: Pos, s: Step, any: bool, id: Id)
    requires StepLegal(pos, s, any) && pos.st.ValidId(id)
    ensures var next := After(pos, s, any).st;
            && next.WellFormed() && next.ValidId(id)
            && next.BaseCount(id) == pos.st.BaseCount(id)
                 + (if !s.move.AnyClue? && pos.st.deck[s.move.order] == Some(id) then 1 else 0)
            && next.CardCount(id) == pos.st.CardCount(id)
  {
  }

  lemma ShapedAfter(pos: Pos, s: Step, any: bool)
    requires StepLegal(pos, s, any) && Clock(pos.st)
    ensures Shaped(After(pos, s, any))
  {
    var next := After(pos, s, any);
    if s.draw.Some? {
      RemoveRemainingEntries(pos.remaining, s.draw.value);
    }
    if !s.move.AnyClue? {
      RemovedSubset(Hand(pos), s.move.order);
      assert Hand(pos) in pos.st.hands;
      forall h, o | h in next.st.hands && o in h
        ensures o < |next.st.deck|
      {
        var q :| 0 <= q < |next.st.hands| && next.st.hands[q] == h;
        if q != pos.turn {
          assert h == pos.st.hands[q];
        }
      }
    }
  }

  lemma ListedAfter(pos: Pos, s: Step, any: bool)
    requires StepLegal(pos, s, any) && Listed(pos)
    ensures Listed(After(pos, s, any))
  {
    var next := After(pos, s, any);
    assert next.st.NumSuits() == pos.st.NumSuits();
    if s.draw.Some? {
      var d :| d in pos.remaining && d.id == s.draw.value;
      RemoveRemainingEntries(pos.remaining, s.draw.value);
      forall r | r in next.remaining
        ensures pos.st.ValidId(r.id)
      {
        var x :| x in pos.remaining && x.id == r.id;
      }
    }
  }

  lemma StacksAfter(pos: Pos, s: Step, any: bool)
    requires StepLegal(pos, s, any) && Sane(pos)
    ensures After(pos, s, any).st.WellFormed() && StacksCapped(After(pos, s, any).st)
  {
    if s.move.PlayCard? {
      var id := pos.st.deck[s.move.order].value;
      assert pos.st.maxRanks[id.suit] < id.rank ==> false by {
        if pos.st.maxRanks[id.suit] < id.rank {
          assert id == Id(id.suit, pos.st.maxRanks[id.suit] + 1);
          CopiesZero(pos.st.deck, Hand(pos), id);
          CopiesInAtLeast(pos.st.deck, pos.st.hands, pos.turn, id);
        }
      }
    }
  }

  /** Every legal step leads from a consistent position to a consistent position. */
  lemma SaneAfter(pos: Pos, s: Step, any: bool)
    requires StepLegal(pos, s, any) && Sane(pos)
    ensures Sane(After(pos, s, any))
  {
    var next := After(pos, s, any);
    ShapedAfter(pos, s, any);
    ListedAfter(pos, s, any);
    StacksAfter(pos, s, any);
    if s.draw.Some? {
      RemoveRemainingOk(pos.remaining, s.draw.value);
    }
    ClockAfter(pos, s, any);
    CountsAfter(pos, s, any);
  }

  lemma ClockAfter(pos: Pos, s: Step, any: bool)
    requires StepLegal(pos, s, any) && Clock(pos.st)
    ensures Clock(After(pos, s, any).st)
  {
  }

  lemma CountsAfter(pos: Pos, s: Step, any: bool)
    requires StepLegal(pos, s, any) && Sane(pos) && After(pos, s, any).st.WellFormed()
    ensures NoExtraCopies(After(pos, s, any)) && NoDeadRanks(After(pos, s, any))
  {
    var next := After(pos, s, any);
    assert next.st.maxRanks == pos.st.maxRanks;
    forall id | next.st.ValidId(id)
      ensures CopiesIn(next.st.deck, next.st.hands, id) + Missing(next.remaining, id) + next.st.BaseCount(id) <= next.st.CardCount(id)
    {
      CopiesAfter(pos, s, any, id);
      BaseAfter(pos, s, any, id);
    }
    forall u | 0 <= u < next.st.NumSuits() && next.st.maxRanks[u] < MAX_RANK
      ensures CopiesIn(next.st.deck, next.st.hands, Id(u, next.st.maxRanks[u] + 1))
              + Missing(next.remaining, Id(u, next.st.maxRanks[u] + 1)) == 0
    {
      CopiesAfter(pos, s, any, Id(u, next.st.maxRanks[u] + 1));
    }
  }
}
