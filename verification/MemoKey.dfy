// The memo key of `winnable_simpler`: positions of one search with the same key are equally winnable.
// The key leaves out the play stacks, the discards and where one hand ends and the next begins.
module MemoKey {
  import opened Cards
  import opened GameState
  import opened Table
  import opened EndgameSteps
  import opened EndgameGame
  import opened EndgamePruning
  import opened DiscardSymmetry

  datatype Key = Key(cards: seq<Option<Id>>, clueTokens: int, endgameTurns: int, turn: nat, remaining: seq<Remaining>)

  function CardIds(deck: seq<Option<Id>>, hand: seq<Order>): (ids: seq<Option<Id>>)
    ensures |ids| == |hand|
  {
    seq(|hand|, i requires 0 <= i < |hand| => if hand[i] < |deck| then deck[hand[i]] else None)
  }

  /** The hands, one after the other without separators. */
  function FlatIds(deck: seq<Option<Id>>, hands: seq<seq<Order>>): seq<Option<Id>> {
    if hands == [] then [] else CardIds(deck, hands[0]) + FlatIds(deck, hands[1..])
  }

  /** `hash_state`, the player whose turn it is and the remaining identities: deck and hands in one list. */
  function KeyOf(pos: Pos): Key {
    Key(pos.st.deck + FlatIds(pos.st.deck, pos.st.hands), pos.st.clueTokens, pos.st.endgameTurns, pos.turn, pos.remaining)
  }

  // ----- What the list of cards determines -----

  lemma {:induction false} CopiesAreOccurrences(deck: seq<Option<Id>>, hand: seq<Order>, id: Id)
    ensures multiset(CardIds(deck, hand))[Some(id)] == Copies(deck, hand, id)
  {
    var ids := CardIds(deck, hand);
    if hand != [] {
      CopiesAreOccurrences(deck, hand[1..], id);
      assert ids == [ids[0]] + CardIds(deck, hand[1..]);
    } else {
      assert ids == [];
    }
  }

  lemma {:induction false} CopiesInAreOccurrences(deck: seq<Option<Id>>, hands: seq<seq<Order>>, id: Id)
    ensures multiset(FlatIds(deck, hands))[Some(id)] == CopiesIn(deck, hands, id)
  {
    if hands != [] {
      CopiesAreOccurrences(deck, hands[0], id);
      CopiesInAreOccurrences(deck, hands[1..], id);
    }
  }

  /** With hands of the same sizes, the list can be cut up again. */
  lemma {:induction false} FlatSplits(da: seq<Option<Id>>, a: seq<seq<Order>>, db: seq<Option<Id>>, b: seq<seq<Order>>)
    requires |a| == |b| && (forall q | 0 <= q < |a| :: |a[q]| == |b[q]|) && FlatIds(da, a) == FlatIds(db, b)
    ensures forall q | 0 <= q < |a| :: CardIds(da, a[q]) == CardIds(db, b[q])
  {
    if a != [] {
      var (x, y) := (CardIds(da, a[0]), CardIds(db, b[0]));
      assert FlatIds(da, a)[..|x|] == x && FlatIds(db, b)[..|y|] == y;
      assert FlatIds(da, a)[|x|..] == FlatIds(da, a[1..]) && FlatIds(db, b)[|y|..] == FlatIds(db, b[1..]);
      FlatSplits(da, a[1..], db, b[1..]);
      forall q | 0 <= q < |a|
        ensures CardIds(da, a[q]) == CardIds(db, b[q])
      {
        if q > 0 { assert a[q] == a[1..][q - 1] && b[q] == b[1..][q - 1]; }
      }
    }
  }

  /** If all hands but one have the same size, the length of the list gives the size of that one. */
  lemma {:induction false} FlatLength(da: seq<Option<Id>>, a: seq<seq<Order>>, db: seq<Option<Id>>, b: seq<seq<Order>>, x: nat)
    requires |a| == |b| && forall q | 0 <= q < |a| && q != x :: |a[q]| == |b[q]|
    ensures x < |a| ==> |FlatIds(da, a)| - |FlatIds(db, b)| == |a[x]| - |b[x]|
    ensures x >= |a| ==> |FlatIds(da, a)| == |FlatIds(db, b)|
  {
    if a != [] {
      forall q | 0 <= q < |a[1..]| && q + 1 != x
        ensures |a[1..][q]| == |b[1..][q]|
      {
        assert a[1..][q] == a[q + 1] && b[1..][q] == b[q + 1];
      }
      FlatLength(da, a[1..], db, b[1..], if x > 0 then x - 1 else |a|);
    }
  }

  lemma {:induction false} NeededFromIds(a: State, ha: seq<Order>, b: State, hb: seq<Order>)
    requires a.WellFormed() && b.WellFormed() && CardIds(a.deck, ha) == CardIds(b.deck, hb)
    requires a.playStacks == b.playStacks && a.maxRanks == b.maxRanks && a.counts == b.counts
    ensures Needed(a, ha) == Needed(b, hb)
  {
    assert |CardIds(a.deck, ha)| == |ha| && |CardIds(b.deck, hb)| == |hb|;
    if ha != [] {
      FirstNeeded(a, ha, b, hb);
      NeededFromIds(a, ha[1..], b, hb[1..]);
    }
  }

  lemma FirstNeeded(a: State, ha: seq<Order>, b: State, hb: seq<Order>)
    requires a.WellFormed() && b.WellFormed() && CardIds(a.deck, ha) == CardIds(b.deck, hb) && ha != [] && hb != []
    requires a.playStacks == b.playStacks && a.maxRanks == b.maxRanks && a.counts == b.counts
    ensures NeededCard(a, ha[0]) == NeededCard(b, hb[0])
    ensures CardIds(a.deck, ha[1..]) == CardIds(b.deck, hb[1..])
  {
    assert CardIds(a.deck, ha)[0] == CardIds(b.deck, hb)[0];
    assert CardIds(a.deck, ha)[1..] == CardIds(a.deck, ha[1..]) && CardIds(b.deck, hb)[1..] == CardIds(b.deck, hb[1..]);
  }

  // ----- What a search keeps -----

  /** Copies of an identity in hands or still to be drawn. */
  function Live(pos: Pos, id: Id): nat {
    CopiesIn(pos.st.deck, pos.st.hands, id) + Missing(pos.remaining, id)
  }

  /** A stack rises over a rank only by using up a copy; needed copies never disappear. */
  ghost predicate StacksFollow(root: Pos, pos: Pos)
    requires root.st.WellFormed() && pos.st.WellFormed() && root.st.NumSuits() == pos.st.NumSuits()
  {
    && (forall s | 0 <= s < pos.st.NumSuits() :: root.st.playStacks[s] <= pos.st.playStacks[s])
    && (forall id: Id :: Live(pos, id) <= Live(root, id))
    && (forall id: Id | Useful(pos.st, id) :: Live(pos, id) == Live(root, id))
    && (forall id: Id | pos.st.ValidId(id) && root.st.playStacks[id.suit] < id.rank <= pos.st.playStacks[id.suit] ::
          Live(pos, id) < Live(root, id))
  }

  /** The length of the deck before an unknown card is noted past its end. */
  function DeckLength(root: Pos, pos: Pos): int {
    if |root.st.deck| >= pos.st.cardOrder + 1 then |root.st.deck| else pos.st.cardOrder + 1
  }

  ghost predicate DeckFollows(root: Pos, pos: Pos) {
    && pos.st.cardsLeft + pos.st.cardOrder == root.st.cardsLeft + root.st.cardOrder
    && |root.st.deck| <= |pos.st.deck|
    && (|pos.st.deck| == DeckLength(root, pos)
        || (pos.st.endgameTurns != -1 && |pos.st.deck| == DeckLength(root, pos) + 1 && pos.st.deck[|pos.st.deck| - 1] == None))
  }

  /** Every card in a hand has a known identity. */
  ghost predicate Identified(st: State) {
    forall h, o | h in st.hands && o in h :: o < |st.deck| && st.deck[o].Some?
  }

  ghost predicate SizesFollow(root: Pos, pos: Pos)
    requires |root.st.hands| == |pos.st.hands| > 0
  {
    forall q | 0 <= q < |pos.st.hands| && Acts(pos.st, pos.turn, q) :: |pos.st.hands[q]| == |root.st.hands[q]|
  }

  /** pos belongs to the search that started at root. */
  ghost predicate From(root: Pos, pos: Pos) {
    && Sane(root) && Sane(pos)
    && |root.st.hands| == |pos.st.hands| && root.st.maxRanks == pos.st.maxRanks && root.st.counts == pos.st.counts
    && StacksFollow(root, pos) && DeckFollows(root, pos) && SizesFollow(root, pos)
    && (Identified(root.st) ==> Identified(pos.st))
  }

  lemma FromItself(root: Pos)
    requires Sane(root)
    ensures From(root, root)
  {
  }

  /** A step uses up at most a copy of the card moved. */
  lemma LiveAfter(pos: Pos, s: Step, any: bool, id: Id)
    requires StepLegal(pos, s, any) && Sane(pos)
    ensures Live(After(pos, s, any), id) == Live(pos, id) - if !s.move.AnyClue? && pos.st.deck[s.move.order] == Some(id) then 1 else 0
  {
    CopiesAfter(pos, s, any, id);
  }

  /** The card moved is played, or not needed. */
  lemma StacksAfterMove(pos: Pos, s: Step, any: bool, id: Id)
    requires StepLegal(pos, s, any) && Sane(pos)
    ensures After(pos, s, any).st.WellFormed() && After(pos, s, any).st.counts == pos.st.counts
    ensures !s.move.AnyClue? && pos.st.deck[s.move.order] == Some(id) ==> !Useful(After(pos, s, any).st, id)
    ensures Useful(After(pos, s, any).st, id) ==> Useful(pos.st, id)
    ensures pos.st.ValidId(id) ==> pos.st.playStacks[id.suit] <= After(pos, s, any).st.playStacks[id.suit]
    ensures pos.st.ValidId(id) && pos.st.playStacks[id.suit] < id.rank <= After(pos, s, any).st.playStacks[id.suit] ==>
              !s.move.AnyClue? && pos.st.deck[s.move.order] == Some(id)
  {
    UsefulAfter(pos, s, any);
    if !s.move.AnyClue? { MovedCard(pos, s, any); }
  }

  lemma StacksFollowAfter(root: Pos, pos: Pos, s: Step, any: bool)
    requires From(root, pos) && StepLegal(pos, s, any)
    ensures After(pos, s, any).st.WellFormed() && After(pos, s, any).st.counts == pos.st.counts
    ensures StacksFollow(root, After(pos, s, any))
  {
    var next := After(pos, s, any);
    StacksAfterMove(pos, s, any, Id(0, 0));
    hide Live, Useful, Sane, StepLegal, After;
    forall u | 0 <= u < pos.st.NumSuits()
      ensures root.st.playStacks[u] <= next.st.playStacks[u]
    {
      StacksAfterMove(pos, s, any, Id(u, 1));
    }
    forall id: Id
      ensures Live(next, id) <= Live(root, id)
      ensures Useful(next.st, id) ==> Live(next, id) == Live(root, id)
      ensures pos.st.ValidId(id) && root.st.playStacks[id.suit] < id.rank <= next.st.playStacks[id.suit] ==>
                Live(next, id) < Live(root, id)
    {
      LiveAfter(pos, s, any, id);
      StacksAfterMove(pos, s, any, id);
    }
  }

  lemma DeckFollowsAfter(root: Pos, pos: Pos, s: Step, any: bool)
    requires From(root, pos) && StepLegal(pos, s, any)
    ensures DeckFollows(root, After(pos, s, any))
  {
    hide StacksFollow, SizesFollow, Identified, NoExtraCopies, NoDeadRanks, StacksCapped, Listed, RemainingOk;
  }

  lemma SizesFollowAfter(root: Pos, pos: Pos, s: Step, any: bool)
    requires From(root, pos) && StepLegal(pos, s, any)
    ensures |After(pos, s, any).st.hands| == |pos.st.hands|
    ensures SizesFollow(root, After(pos, s, any))
  {
    var next := After(pos, s, any);
    forall q | 0 <= q < |next.st.hands| && Acts(next.st, next.turn, q)
      ensures |next.st.hands[q]| == |root.st.hands[q]|
    {
      ActsAfter(pos, s, any, q);
      NeedsAfter(pos, s, any, q);
    }
  }

  lemma IdentifiedAfter(pos: Pos, s: Step, any: bool)
    requires Sane(pos) && StepLegal(pos, s, any) && Identified(pos.st)
    ensures Identified(After(pos, s, any).st)
  {
    var next := After(pos, s, any).st;
    if !s.move.AnyClue? {
      RemovedSubset(Hand(pos), s.move.order);
      assert Hand(pos) in pos.st.hands;
      forall h, o | h in next.hands && o in h
        ensures o < |next.deck| && next.deck[o].Some?
      {
        var q :| 0 <= q < |next.hands| && next.hands[q] == h;
        if q != pos.turn {
          assert h == pos.st.hands[q];
        }
      }
    }
  }

  /** The search never leaves its root behind. */
  lemma FromAfter(root: Pos, pos: Pos, s: Step, any: bool)
    requires From(root, pos) && StepLegal(pos, s, any)
    ensures From(root, After(pos, s, any))
  {
    SaneAfter(pos, s, any);
    StacksFollowAfter(root, pos, s, any);
    DeckFollowsAfter(root, pos, s, any);
    SizesFollowAfter(root, pos, s, any);
    if Identified(root.st) { IdentifiedAfter(pos, s, any); }
    assert After(pos, s, any).st.maxRanks == pos.st.maxRanks;
  }

  // ----- Equal keys -----

  /** The stacks can be read off the copies that are left. */
  lemma StacksFromLive(root: Pos, a: Pos, b: Pos)
    requires From(root, a) && From(root, b) && forall id: Id :: Live(a, id) == Live(b, id)
    ensures a.st.playStacks == b.st.playStacks
  {
    forall s | 0 <= s < a.st.NumSuits()
      ensures a.st.playStacks[s] == b.st.playStacks[s]
    {
      assert a.st.playStacks[s] < b.st.playStacks[s] ==> Useful(a.st, Id(s, a.st.playStacks[s] + 1));
      assert b.st.playStacks[s] < a.st.playStacks[s] ==> Useful(b.st, Id(s, b.st.playStacks[s] + 1));
    }
  }

  /** Same cards, same hand sizes: the positions are alike. */
  lemma SameCardsAlike(root: Pos, a: Pos, b: Pos)
    requires From(root, a) && From(root, b) && KeyOf(a) == KeyOf(b)
    requires |a.st.deck| == |b.st.deck| && a.st.cardsLeft == b.st.cardsLeft
    requires forall q | 0 <= q < |a.st.hands| :: |a.st.hands[q]| == |b.st.hands[q]|
    ensures Alike(a, b)
  {
    assert KeyOf(a).cards[..|a.st.deck|] == a.st.deck && KeyOf(b).cards[..|b.st.deck|] == b.st.deck;
    assert KeyOf(a).cards[|a.st.deck|..] == FlatIds(a.st.deck, a.st.hands);
    assert KeyOf(b).cards[|b.st.deck|..] == FlatIds(b.st.deck, b.st.hands);
    forall id: Id
      ensures Live(a, id) == Live(b, id)
    {
      CopiesInAreOccurrences(a.st.deck, a.st.hands, id);
      CopiesInAreOccurrences(b.st.deck, b.st.hands, id);
    }
    StacksFromLive(root, a, b);
    FlatSplits(a.st.deck, a.st.hands, b.st.deck, b.st.hands);
    forall q | 0 <= q < |a.st.hands|
      ensures SameHand(a.st, b.st, q)
    {
      NeededFromIds(a.st, a.st.hands[q], b.st, b.st.hands[q]);
    }
  }

  /** Before the last round the key tells everything that matters. */
  lemma KeyBeforeLastRound(root: Pos, a: Pos, b: Pos)
    requires From(root, a) && From(root, b) && KeyOf(a) == KeyOf(b) && a.st.endgameTurns == -1
    ensures Alike(a, b)
  {
    forall q | 0 <= q < |a.st.hands|
      ensures |a.st.hands[q]| == |root.st.hands[q]| && |b.st.hands[q]| == |root.st.hands[q]|
    {
      assert Acts(a.st, a.turn, q) && Acts(b.st, b.turn, q);
    }
    FlatLength(a.st.deck, a.st.hands, b.st.deck, b.st.hands, |a.st.hands|);
    assert |KeyOf(a).cards| == |KeyOf(b).cards|;
    SameCardsAlike(root, a, b);
  }

  /** The player who has the last turn holds a card that is still useful. */
  lemma LastPlayerNotVoid(pos: Pos)
    requires Sane(pos) && !Won(pos.st) && !Unwinnable(pos.st, pos.turn) && pos.st.endgameTurns == 1
    ensures !Void(pos.st, pos.turn) && pos.st.MaxScore() == pos.st.Score() + 1
  {
    assert Ahead(pos.st, pos.turn, 1) == (if Void(pos.st, pos.turn) then 0 else 1) by {
      SeatValue(pos.turn, 0, pos.st.NumPlayers());
      assert Ahead(pos.st, pos.turn, 0) == 0;
    }
    SumMono(pos.st.playStacks, pos.st.maxRanks);
  }

  /** With one point missing, a useful card is the next of its suit. */
  lemma UsefulIsNext(stacks: seq<nat>, maxRanks: seq<nat>, id: Id)
    requires |stacks| == |maxRanks| && id.suit < |stacks| && stacks[id.suit] < id.rank <= maxRanks[id.suit]
    requires (forall s | 0 <= s < |stacks| :: stacks[s] <= maxRanks[s]) && Sum(maxRanks) == Sum(stacks) + 1
    ensures id.rank == stacks[id.suit] + 1 && Sum(stacks[id.suit := id.rank]) == Sum(maxRanks)
  {
    SumUpdate(stacks, id.suit, id.rank);
    SumMono(stacks[id.suit := id.rank], maxRanks);
  }

  /** With one turn left, a position that is neither won nor pruned wins by a play. */
  lemma OneTurnWins(pos: Pos)
    requires Sane(pos) && !Won(pos.st) && !Unwinnable(pos.st, pos.turn) && pos.st.endgameTurns == 1
    ensures CanWin(pos, false)
  {
    LastPlayerNotVoid(pos);
    hide Unwinnable, NoExtraCopies, NoDeadRanks, Sum;
    var o :| o in Hand(pos) && !Discardable(pos.st, o);
    HandListed(pos);
    var id := pos.st.deck[o].value;
    UsefulIsNext(pos.st.playStacks, pos.st.maxRanks, id);
    var s := Step(PlayCard(o), None);
    assert StepLegal(pos, s, false);
    assert Won(After(pos, s, false).st);
    hide After, StepLegal, Won, Wins;
    CanWinUnfold(After(pos, s, false), false);
    CanWinUnfold(pos, false);
  }

  lemma {:induction false} FlatKnown(deck: seq<Option<Id>>, hands: seq<seq<Order>>)
    requires forall h, o | h in hands && o in h :: o < |deck| && deck[o].Some?
    ensures None !in FlatIds(deck, hands)
  {
    if hands != [] {
      var hand := hands[0];
      assert hand in hands && forall h | h in hands[1..] :: h in hands;
      FlatKnown(deck, hands[1..]);
      assert forall i | 0 <= i < |hand| :: hand[i] in hand && CardIds(deck, hand)[i] == deck[hand[i]];
      assert None !in CardIds(deck, hand);
    }
  }

  lemma CutAt(da: seq<Option<Id>>, fa: seq<Option<Id>>, db: seq<Option<Id>>, fb: seq<Option<Id>>)
    requires da + fa == db + fb && |da| > |db|
    ensures da[|db|] in fb
  {
    assert |fb| > 0 && (da + fa)[|db|] == da[|db|] && (db + fb)[|db|] == fb[0];
  }

  /** An unknown card past the end of the deck is not mistaken for a card in a hand. */
  lemma DeckNotLonger(root: Pos, a: Pos, b: Pos)
    requires From(root, a) && From(root, b) && KeyOf(a) == KeyOf(b) && a.st.endgameTurns != -1 && Identified(b.st)
    ensures |a.st.deck| <= |b.st.deck|
  {
    FlatKnown(b.st.deck, b.st.hands);
    if |a.st.deck| > |b.st.deck| {
      CutAt(a.st.deck, FlatIds(a.st.deck, a.st.hands), b.st.deck, FlatIds(b.st.deck, b.st.hands));
    }
  }

  /** Early in the last round at most one player has no turn left, so the hands can be told apart. */
  lemma KeyEarlyInLastRound(root: Pos, a: Pos, b: Pos)
    requires From(root, a) && From(root, b) && KeyOf(a) == KeyOf(b) && a.st.endgameTurns >= 1
    requires a.st.endgameTurns >= a.st.NumPlayers() - 1 && (a.st.endgameTurns == a.st.NumPlayers() || Identified(root.st))
    ensures Alike(a, b)
  {
    var n := a.st.NumPlayers();
    var x := Seat(a.turn, n - 1, n);
    forall q | 0 <= q < n && (q != x || a.st.endgameTurns == n)
      ensures |a.st.hands[q]| == |root.st.hands[q]| && |b.st.hands[q]| == |root.st.hands[q]|
    {
      SeatOf(a.turn, q, n);
      assert Acts(a.st, a.turn, q) && Acts(b.st, b.turn, q);
    }
    FlatLength(a.st.deck, a.st.hands, b.st.deck, b.st.hands, x);
    assert |KeyOf(a).cards| == |KeyOf(b).cards|;
    if a.st.endgameTurns < n {
      DeckNotLonger(root, a, b);
      DeckNotLonger(root, b, a);
    }
    SameCardsAlike(root, a, b);
  }
}
