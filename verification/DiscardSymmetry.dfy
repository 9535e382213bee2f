// The search only considers discarding the first card that is trash or unidentified. Positions that differ
// in such cards, or in the order of hands, are equally winnable, so nothing is lost.
module DiscardSymmetry {
  import opened Cards
  import opened GameState
  import opened Table
  import opened EndgameSteps
  import opened EndgameGame
  import opened EndgamePruning

  function NeededCard(st: State, o: Order): multiset<Id>
    requires st.WellFormed()
  {
    if o < |st.deck| && st.deck[o].Some? && Useful(st, st.deck[o].value) then multiset{st.deck[o].value} else multiset{}
  }

  /** The identities in a hand that are still needed. */
  function Needed(st: State, hand: seq<Order>): multiset<Id>
    requires st.WellFormed()
  {
    if hand == [] then multiset{} else NeededCard(st, hand[0]) + Needed(st, hand[1..])
  }

  lemma {:induction false} NeededAppend(st: State, a: seq<Order>, b: seq<Order>)
    requires st.WellFormed()
    ensures Needed(st, a + b) == Needed(st, a) + Needed(st, b)
  {
    if a == [] {
      assert a + b == b;
    } else {
      assert (a + b)[1..] == a[1..] + b;
      NeededAppend(st, a[1..], b);
    }
  }

  lemma {:induction false} NeededSize(st: State, hand: seq<Order>)
    requires st.WellFormed() && forall o | o in hand :: o < |st.deck| && (st.deck[o].Some? ==> st.ValidId(st.deck[o].value))
    ensures |Needed(st, hand)| <= |hand|
    ensures |Needed(st, hand)| == |hand| <==> forall o | o in hand :: !Discardable(st, o)
  {
    if hand != [] {
      assert hand[0] in hand && forall o | o in hand[1..] :: o in hand;
      NeededSize(st, hand[1..]);
      assert hand == [hand[0]] + hand[1..];
      assert Discardable(st, hand[0]) <==> |NeededCard(st, hand[0])| == 0;
    }
  }

  lemma {:induction false} NeededMember(st: State, hand: seq<Order>, id: Id)
    requires st.WellFormed()
    ensures id in Needed(st, hand) <==> Useful(st, id) && exists o | o in hand :: o < |st.deck| && st.deck[o] == Some(id)
  {
    if hand != [] {
      NeededMember(st, hand[1..], id);
      assert hand == [hand[0]] + hand[1..];
    }
  }

  lemma NeededRemove(st: State, hand: seq<Order>, o: Order)
    requires st.WellFormed() && o in hand
    ensures Needed(st, RemoveFrom(hand, o)) == Needed(st, hand) - NeededCard(st, o)
  {
    var i := IndexOf(hand, o);
    assert hand == hand[..i] + ([o] + hand[i + 1..]);
    NeededAppend(st, hand[..i], [o] + hand[i + 1..]);
    NeededAppend(st, [o], hand[i + 1..]);
    NeededAppend(st, hand[..i], hand[i + 1..]);
    assert Needed(st, [o]) == NeededCard(st, o);
  }

  /** What is still needed after the stacks grew by the identity played, if any. */
  function Still(m: multiset<Id>, played: Option<Id>): multiset<Id> {
    if played.Some? then m[played.value := 0] else m
  }

  /** The identity that a move puts on the stacks. */
  function PlayedBy(st: State, m: Move): Option<Id> {
    if m.PlayCard? && m.order < |st.deck| then st.deck[m.order] else None
  }

  /** A drawn card that is needed. */
  function Gain(st: State, draw: Option<Id>): multiset<Id>
    requires st.WellFormed()
  {
    if draw.Some? && Useful(st, draw.value) then multiset{draw.value} else multiset{}
  }

  lemma StillPlus(a: multiset<Id>, b: multiset<Id>, played: Option<Id>)
    ensures Still(a + b, played) == Still(a, played) + Still(b, played)
    ensures played.Some? ==> Still(a - multiset{played.value}, played) == Still(a, played)
  {
  }

  lemma CardStays(s0: State, s1: State, o: Order, played: Option<Id>)
    requires s0.WellFormed() && s1.WellFormed() && o < |s0.deck| && o < |s1.deck| && s1.deck[o] == s0.deck[o]
    requires forall id: Id :: Useful(s1, id) <==> Useful(s0, id) && played != Some(id)
    ensures NeededCard(s1, o) == Still(NeededCard(s0, o), played)
  {
  }

  lemma {:induction false} NeededStays(s0: State, s1: State, hand: seq<Order>, played: Option<Id>)
    requires s0.WellFormed() && s1.WellFormed()
    requires forall o | o in hand :: o < |s0.deck| && o < |s1.deck| && s1.deck[o] == s0.deck[o]
    requires forall id: Id :: Useful(s1, id) <==> Useful(s0, id) && played != Some(id)
    ensures Needed(s1, hand) == Still(Needed(s0, hand), played)
  {
    if hand != [] {
      assert hand[0] in hand && forall o | o in hand[1..] :: o in hand;
      NeededStays(s0, s1, hand[1..], played);
      CardStays(s0, s1, hand[0], played);
      hide Useful, NeededCard, Still;
      StillPlus(NeededCard(s0, hand[0]), Needed(s0, hand[1..]), played);
    }
  }

  /** A legal step makes exactly the identity played useless. */
  lemma UsefulAfter(pos: Pos, s: Step, any: bool)
    requires StepLegal(pos, s, any) && StacksCapped(pos.st)
    ensures After(pos, s, any).st.WellFormed()
    ensures forall id: Id :: Useful(After(pos, s, any).st, id) <==> Useful(pos.st, id) && PlayedBy(pos.st, s.move) != Some(id)
  {
  }

  /** How a step changes the hand of a player who may act again. */
  lemma NeedsAfter(pos: Pos, s: Step, any: bool, p: nat)
    requires StepLegal(pos, s, any) && Sane(pos) && p < |pos.st.hands|
    requires p != pos.turn || s.move.AnyClue? || pos.st.endgameTurns == -1
    ensures var next := After(pos, s, any).st;
            && next.WellFormed() && |next.hands| == |pos.st.hands| && |next.hands[p]| == |pos.st.hands[p]|
            && Needed(next, next.hands[p]) == (if p == pos.turn then Gain(next, s.draw) else multiset{})
                                             + Still(Needed(pos.st, pos.st.hands[p]), PlayedBy(pos.st, s.move))
  {
    var next := After(pos, s, any).st;
    var played := PlayedBy(pos.st, s.move);
    UsefulAfter(pos, s, any);
    assert pos.st.hands[p] in pos.st.hands;
    if p != pos.turn || s.move.AnyClue? {
      assert next.hands[p] == pos.st.hands[p];
      hide Useful, NeededCard, Needed, Still;
      NeededStays(pos.st, next, pos.st.hands[p], played);
    } else {
      var rest := RemoveFrom(Hand(pos), s.move.order);
      var drawn := [pos.st.cardOrder + 1];
      RemovedSubset(Hand(pos), s.move.order);
      assert next.hands[p] == drawn + rest;
      MoverKeeps(pos, s, any);
      NeededAppend(next, drawn, rest);
      DrawnCard(pos, s, any);
    }
  }

  lemma MoverKeeps(pos: Pos, s: Step, any: bool)
    requires StepLegal(pos, s, any) && Sane(pos) && !s.move.AnyClue?
    ensures After(pos, s, any).st.WellFormed()
    ensures Needed(After(pos, s, any).st, RemoveFrom(Hand(pos), s.move.order))
            == Still(Needed(pos.st, Hand(pos)), PlayedBy(pos.st, s.move))
  {
    var next := After(pos, s, any).st;
    var played := PlayedBy(pos.st, s.move);
    UsefulAfter(pos, s, any);
    HandListed(pos);
    RemovedSubset(Hand(pos), s.move.order);
    MovedCard(pos, s, any);
    assert forall o | o in RemoveFrom(Hand(pos), s.move.order) :: o < |next.deck| && next.deck[o] == pos.st.deck[o];
    hide Useful, NeededCard, Needed, Still;
    NeededRemove(pos.st, Hand(pos), s.move.order);
    NeededStays(pos.st, next, RemoveFrom(Hand(pos), s.move.order), played);
    StillPlus(Needed(pos.st, Hand(pos)), multiset{}, played);
  }

  /** The card that leaves the hand is the one played, or not needed. */
  lemma MovedCard(pos: Pos, s: Step, any: bool)
    requires StepLegal(pos, s, any) && Sane(pos) && !s.move.AnyClue?
    ensures var m := NeededCard(pos.st, s.move.order);
            if s.move.PlayCard? then PlayedBy(pos.st, s.move).Some? && m == multiset{PlayedBy(pos.st, s.move).value}
            else PlayedBy(pos.st, s.move).None? && m == multiset{}
  {
    if s.move.PlayCard? {
      PlayedUseful(pos, s.move.order);
    }
  }

  lemma DrawnCard(pos: Pos, s: Step, any: bool)
    requires StepLegal(pos, s, any) && Sane(pos) && !s.move.AnyClue? && pos.st.endgameTurns == -1
    ensures After(pos, s, any).st.WellFormed()
    ensures Needed(After(pos, s, any).st, [pos.st.cardOrder + 1]) == Gain(After(pos, s, any).st, s.draw)
  {
    var next := After(pos, s, any).st;
    assert next.deck[pos.st.cardOrder + 1] == s.draw;
  }

  // ----- Equally winnable positions -----

  /** Everything on the table but the hands and the discards. */
  predicate SameTable(a: State, b: State) {
    && |a.hands| == |b.hands| && a.playStacks == b.playStacks && a.maxRanks == b.maxRanks && a.counts == b.counts
    && a.cardsLeft == b.cardsLeft && a.clueTokens == b.clueTokens && a.endgameTurns == b.endgameTurns
  }

  /** The player still has a turn. */
  ghost predicate Acts(st: State, turn: nat, p: nat)
    requires st.NumPlayers() > 0
  {
    p < st.NumPlayers() && (st.endgameTurns != -1 ==> exists i :: 0 <= i < st.endgameTurns && Seat(turn, i, st.NumPlayers()) == p)
  }

  ghost predicate SameHand(a: State, b: State, p: nat)
    requires a.WellFormed() && b.WellFormed() && p < |a.hands| == |b.hands|
  {
    |a.hands[p]| == |b.hands[p]| && Needed(a, a.hands[p]) == Needed(b, b.hands[p])
  }

  /** The positions differ only in trash, unknown cards, discards and the order of hands. */
  ghost predicate Alike(a: Pos, b: Pos)
    requires a.st.WellFormed() && b.st.WellFormed()
  {
    && a.turn == b.turn && a.remaining == b.remaining && SameTable(a.st, b.st)
    && forall p | 0 <= p < a.st.NumPlayers() && Acts(a.st, a.turn, p) :: SameHand(a.st, b.st, p)
  }

  /** The matching moves do the same to the table. */
  predicate Matching(a: State, b: State, m: Move, n: Move) {
    m.PlayCard? == n.PlayCard? && m.AnyClue? == n.AnyClue? && PlayedBy(a, m) == PlayedBy(b, n)
  }

  lemma TableAfter(a: Pos, b: Pos, s: Step, t: Step, x: bool, y: bool)
    requires StepLegal(a, s, x) && StepLegal(b, t, y) && SameTable(a.st, b.st)
    requires Matching(a.st, b.st, s.move, t.move)
    ensures SameTable(After(a, s, x).st, After(b, t, y).st)
  {
  }

  /** Who acts after a step also acted before it. */
  lemma ActsAfter(pos: Pos, s: Step, any: bool, p: nat)
    requires StepLegal(pos, s, any) && Clock(pos.st)
    requires After(pos, s, any).st.NumPlayers() == pos.st.NumPlayers() && Acts(After(pos, s, any).st, After(pos, s, any).turn, p)
    ensures Acts(pos.st, pos.turn, p)
    ensures p != pos.turn || pos.st.endgameTurns == -1
  {
    var n := pos.st.NumPlayers();
    var next := After(pos, s, any);
    if pos.st.endgameTurns != -1 {
      var i :| 0 <= i < next.st.endgameTurns && Seat(next.turn, i, n) == p;
      SeatNext(pos.turn, i, n);
      SeatDistinct(pos.turn, i + 1, n);
    }
  }

  /** The other position has a matching move, using its own first discardable card. */
  lemma MatchingMove(a: Pos, b: Pos, s: Step) returns (t: Step)
    requires Sane(a) && Sane(b) && Alike(a, b) && StepLegal(a, s, true)
    ensures StepLegal(b, t, false) && t.draw == s.draw && Matching(a.st, b.st, s.move, t.move)
  {
    var n := a.st.NumPlayers();
    SeatValue(a.turn, 0, n);
    assert Acts(a.st, a.turn, a.turn);
    assert SameHand(a.st, b.st, a.turn);
    match s.move
    case AnyClue => t := s;
    case PlayCard(o) =>
      var id := a.st.deck[o].value;
      PlayedUseful(a, o);
      NeededMember(a.st, Hand(a), id);
      NeededMember(b.st, Hand(b), id);
      var o' :| o' in Hand(b) && o' < |b.st.deck| && b.st.deck[o'] == Some(id);
      t := Step(PlayCard(o'), s.draw);
    case DiscardCard(o) =>
      HandListed(a);
      HandListed(b);
      NeededSize(a.st, Hand(a));
      NeededSize(b.st, Hand(b));
      var d := FirstDiscardable(b.st, Hand(b));
      t := Step(DiscardCard(d.value), s.draw);
  }

  lemma HandListed(pos: Pos)
    requires Sane(pos)
    ensures forall o | o in Hand(pos) :: o < |pos.st.deck| && (pos.st.deck[o].Some? ==> pos.st.ValidId(pos.st.deck[o].value))
  {
    assert Hand(pos) in pos.st.hands;
  }

  /** A playable card in a hand is below the cap of its suit. */
  lemma PlayedUseful(pos: Pos, o: Order)
    requires Sane(pos) && o in Hand(pos) && PlayableCard(pos.st, o)
    ensures Useful(pos.st, pos.st.deck[o].value)
  {
    var id := pos.st.deck[o].value;
    if pos.st.maxRanks[id.suit] < id.rank {
      assert id == Id(id.suit, pos.st.maxRanks[id.suit] + 1);
      CopiesZero(pos.st.deck, Hand(pos), id);
      CopiesInAtLeast(pos.st.deck, pos.st.hands, pos.turn, id);
    }
  }

  lemma AlikeAfter(a: Pos, b: Pos, s: Step, t: Step)
    requires Sane(a) && Sane(b) && Alike(a, b) && StepLegal(a, s, true) && StepLegal(b, t, false)
    requires t.draw == s.draw && Matching(a.st, b.st, s.move, t.move)
    ensures After(a, s, true).st.WellFormed() && After(b, t, false).st.WellFormed()
    ensures Alike(After(a, s, true), After(b, t, false))
  {
    UsefulAfter(a, s, true);
    UsefulAfter(b, t, false);
    var (a', b') := (After(a, s, true), After(b, t, false));
    TableAfter(a, b, s, t, true, false);
    forall p | 0 <= p < a'.st.NumPlayers() && Acts(a'.st, a'.turn, p)
      ensures SameHand(a'.st, b'.st, p)
    {
      ActsAfter(a, s, true, p);
      assert SameHand(a.st, b.st, p);
      NeedsAfter(a, s, true, p);
      NeedsAfter(b, t, false, p);
      assert forall id: Id :: Useful(a'.st, id) == Useful(b'.st, id);
    }
  }

  lemma {:induction false} AlikeWins(a: Pos, b: Pos, path: seq<Step>)
    requires Sane(a) && Sane(b) && Alike(a, b) && Wins(a, path, true)
    ensures CanWin(b, false)
    decreases |path|
  {
    CanWinUnfold(b, false);
    if path != [] {
      var s := path[0];
      var t := MatchingMove(a, b, s);
      SaneAfter(a, s, true);
      SaneAfter(b, t, false);
      AlikeAfter(a, b, s, t);
      AlikeWins(After(a, s, true), After(b, t, false), path[1..]);
    }
  }

  /** A run of the search's own moves is a run of the full game. */
  lemma {:induction false} FewerMoves(pos: Pos, path: seq<Step>)
    requires Wins(pos, path, false)
    ensures Wins(pos, path, true)
    decreases |path|
  {
    if path != [] {
      FewerMoves(After(pos, path[0], false), path[1..]);
    }
  }

  lemma AlikeItself(pos: Pos)
    requires Sane(pos)
    ensures Alike(pos, pos)
  {
  }

  lemma AlikeSymmetric(a: Pos, b: Pos)
    requires Sane(a) && Sane(b) && Alike(a, b)
    ensures Alike(b, a)
  {
    forall p | 0 <= p < b.st.NumPlayers() && Acts(b.st, b.turn, p)
      ensures SameHand(b.st, a.st, p)
    {
      assert Acts(a.st, a.turn, p);
    }
  }

  /** Discarding only the first trash or unknown card wins whenever discarding any of them does. */
  lemma FirstDiscardSuffices(pos: Pos)
    requires Sane(pos)
    ensures CanWin(pos, true) <==> CanWin(pos, false)
  {
    if CanWin(pos, true) {
      var path :| Wins(pos, path, true);
      AlikeItself(pos);
      AlikeWins(pos, pos, path);
    }
    if CanWin(pos, false) {
      var path :| Wins(pos, path, false);
      FewerMoves(pos, path);
    }
  }

  /** Alike positions are equally winnable. */
  lemma AlikeEqual(a: Pos, b: Pos)
    requires Sane(a) && Sane(b) && Alike(a, b)
    ensures CanWin(a, false) <==> CanWin(b, false)
  {
    FirstDiscardSuffices(a);
    FirstDiscardSuffices(b);
    AlikeSymmetric(a, b);
    if CanWin(a, true) {
      var path :| Wins(a, path, true);
      AlikeWins(a, b, path);
    }
    if CanWin(b, true) {
      var path :| Wins(b, path, true);
      AlikeWins(b, a, path);
    }
  }
}
