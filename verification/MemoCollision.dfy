// In the last round the memo key does not tell where a hand ends, so cards count as a neighbour's: two positions of one
// search can have the same key and different verdicts. It takes four players, or three and a card that nobody knows.
module MemoCollision {
  import opened Cards
  import opened GameState
  import opened TableLaws
  import opened EndgameGame
  import opened EndgameRemaining
  import opened MemoKey
  import opened EndgameSearch
  import opened Boards
  import opened BoardTables

  // ----- Real tables -----

  const HAND_SIZE: seq<nat> := [0, 0, 5, 5, 4, 4, 3]
  const PLAIN: seq<nat> := [3, 2, 2, 2, 1]

  /** A legal table of n players with full hands, in a variant of plain suits, and the list of its unseen cards. */
  ghost predicate RealTable(root: Pos, n: nat) {
    && 2 <= n <= 6 && |root.st.hands| == n && root.turn < n
    && (exists w :: TableOk(w, root.st, []))
    && root.remaining == AllUnseen(root.st, root.st.deck)
    && (forall p | 0 <= p < n :: |root.st.hands[p]| == HAND_SIZE[n])
    && (forall s | 0 <= s < |root.st.counts| :: root.st.counts[s] == PLAIN)
  }

  lemma CollisionBreaks(root: Pos, x: Pos, y: Pos)
    requires Collide(root, x, y)
    ensures !Agree(root, 2) && !KeysAgree(root)
  {
    hide LooksUp, CanWin, KeyOf, Visits;
  }

  /** One search that is asked about both positions of a collision: the verdict remembered from the first is
      returned for the second, which can be won. */
  method AskBoth(root: Pos, x: Pos, y: Pos) returns (first: bool, second: bool)
    requires Collide(root, x, y)
    ensures !first && !second && CanWin(y, false)
  {
    hide CanWin, KeyOf, Visits;
    assert From(root, x) && From(root, y);
    forall turns: int | 0 <= turns < 2
      ensures Agree(root, turns)
    {
      KeysAgreeAt(root, turns);
    }
    hide LooksUp, From, Agree;
    var search := new Search(root, true);
    first := search.WinnableSimpler(x);
    second := search.WinnableSimpler(y);
  }

  function A(rank: nat): Id { Id(0, rank) }

  function B(rank: nat): Id { Id(1, rank) }

  function C(rank: nat): Id { Id(2, rank) }

  function D(rank: nat): Id { Id(3, rank) }

  const COUNTS3: seq<seq<nat>> := [PLAIN, PLAIN, PLAIN]
  const COUNTS4: seq<seq<nat>> := [PLAIN, PLAIN, PLAIN, PLAIN]

  /** The true cards are cards of the variant. */
  ghost predicate ValidCards(b: Board, full: seq<seq<Id>>, gone: seq<Id>, numSuits: nat) {
    Valid(gone, numSuits) && Valid(b.draws, numSuits) && forall h | h in full :: Valid(h, numSuits)
  }

  lemma {:induction false} ValidJoined(hands: seq<seq<Id>>, numSuits: nat)
    requires forall h | h in hands :: Valid(h, numSuits)
    ensures Valid(Joined(hands), numSuits)
  {
    if hands != [] {
      assert hands[0] in hands && forall h | h in hands[1..] :: h in hands;
      ValidJoined(hands[1..], numSuits);
    }
  }

  /** A board with full hands and all cards of a variant of plain suits. */
  ghost predicate RealBoard(n: nat, b: Board, full: seq<seq<Id>>, gone: seq<Id>, discards: seq<seq<nat>>, counts: seq<seq<nat>>) {
    && 2 <= n <= 6 && |b.hands| == n && AtRoot(b) && ValidCards(b, full, gone, |counts|) && HidesOnly(full, b.hands)
    && (forall p | 0 <= p < n :: |b.hands[p]| == HAND_SIZE[n]) && (forall s | 0 <= s < |counts| :: counts[s] == PLAIN)
    && var st := TableOf(b, gone, discards, counts); st.WellFormed() && AllCopies(b, full, st) && MaxRanksLaw(st)
  }

  predicate AllKnown(b: Board) {
    forall h, id | h in b.hands && id in h :: id.rank > 0
  }

  lemma RealIsWhole(n: nat, b: Board, full: seq<seq<Id>>, gone: seq<Id>, discards: seq<seq<nat>>, counts: seq<seq<nat>>)
    requires RealBoard(n, b, full, gone, discards, counts)
    ensures Whole(b, full, gone, discards, counts)
  {
    ValidJoined(full, |counts|);
    hide AllCopies, MaxRanksLaw, TableOf, HidesOnly, Joined;
  }

  lemma TableCounts(b: Board, gone: seq<Id>, discards: seq<seq<nat>>, counts: seq<seq<nat>>)
    ensures TableOf(b, gone, discards, counts).counts == counts && |TableOf(b, gone, discards, counts).hands| == |b.hands|
  {
  }

  /** The root of such a board is a real table. */
  lemma RealBoardRoot(n: nat, b: Board, full: seq<seq<Id>>, gone: seq<Id>, discards: seq<seq<nat>>, counts: seq<seq<nat>>)
    requires RealBoard(n, b, full, gone, discards, counts)
    ensures var root := RootOf(b, gone, discards, counts);
            RealTable(root, n) && Shows(root, root, b) && (AllKnown(b) ==> Identified(root.st))
  {
    hide TableOk, AllUnseen, Identified, AllCopies, MaxRanksLaw, Joined, OrdersFrom, Valid, ValidCards, HidesOnly, Whole, Left,
      HandShown, Faces, DealOf, Sane, Shows, TableOf;
    RealIsWhole(n, b, full, gone, discards, counts);
    if AllKnown(b) { TableIdentified(b, gone, discards, counts); }
    TableLegal(b, full, gone, discards, counts);
    RootShown(b, full, gone, discards, counts);
    TableCounts(b, gone, discards, counts);
    var root := RootOf(b, gone, discards, counts);
    forall p | 0 <= p < n
      ensures |root.st.hands[p]| == HAND_SIZE[n]
    {
      ShownSize(root, b, p);
    }
  }

  lemma ShownSize(root: Pos, b: Board, p: nat)
    requires Shows(root, root, b) && p < |b.hands|
    ensures |root.st.hands[p]| == |b.hands[p]|
  {
    assert HandShown(root.st.deck, root.st.hands[p], b.hands[p]);
  }

  /** Two boards below b that share a key after a last clue spoils the first, while the second can be completed. */
  ghost predicate Colliding(b: Board, mid: Board, midWin: Board, two: Board, twoWin: Board, id: Id) {
    && Reaches(b, mid) && Reaches(mid, midWin) && Finished(midWin) && midWin.maxRanks == mid.maxRanks && Unfinished(mid)
    && Reaches(b, two) && Reaches(two, twoWin) && Finished(twoWin) && twoWin.maxRanks == two.maxRanks && Unfinished(two)
    && Can(mid, Hint) && SameKey(Do(mid, Hint), two) && StuckBoard(Do(mid, Hint), id)
  }

  lemma RealCollision(n: nat, b: Board, full: seq<seq<Id>>, gone: seq<Id>, discards: seq<seq<nat>>, counts: seq<seq<nat>>,
                      mid: Board, midWin: Board, two: Board, twoWin: Board, id: Id)
      returns (root: Pos, x: Pos, y: Pos)
    requires RealBoard(n, b, full, gone, discards, counts) && Colliding(b, mid, midWin, two, twoWin, id)
    ensures RealTable(root, n) && Collide(root, x, y) && (AllKnown(b) ==> Identified(root.st))
  {
    RealBoardRoot(n, b, full, gone, discards, counts);
    root := RootOf(b, gone, discards, counts);
    hide RealTable, RealBoard, Reaches, Shows, Collide, Unfinished, Finished, Can, Do, SameKey, StuckBoard, Identified, AllKnown;
    x, y := BoardsCollide(root, b, mid, midWin, Hint, two, twoWin, id);
  }

  lemma ThreeJoined(hands: seq<seq<Id>>)
    requires |hands| == 3
    ensures Joined(hands) == hands[0] + hands[1] + hands[2]
  {
    assert Joined(hands[1..]) == hands[1] + Joined(hands[2..]);
    assert hands[2..][0] == hands[2] && hands[2..][1..] == [];
  }

  lemma UnknownFirst(ids: seq<Id>)
    ensures Faces([UNKNOWN] + ids) == [None] + Faces(ids)
  {
  }

  // ----- Three players -----

  const DRAWS3: seq<Id> := [A(1), A(4), C(1), A(4), C(2), A(5), C(3), C(5), D(5), B(5), D(1), D(2), D(3), A(1)]
  const CAPS3: seq<nat> := [1, 5, 3, 3]
  const DISCARDS3: seq<seq<nat>> := [[0, 2, 0, 0, 0], [0, 0, 0, 0, 0], [1, 0, 0, 2, 0], [0, 0, 0, 2, 0]]
  const GONE3: seq<Id> := [A(2), A(2), B(1), B(2), B(3), B(4), C(1), C(4), C(4), D(4), D(4)]
  const FULL3: seq<seq<Id>> := [[D(1), C(3), C(2), C(1), A(1)], [B(1), B(2), D(3), D(2), D(1)],
      [B(1), B(3), B(4), A(3), A(3)]]

  function Row3(hands: seq<seq<Id>>, stacks: seq<nat>, tokens: int, turns: int, turn: nat, drawn: nat, noted: bool): Board
    requires drawn <= |DRAWS3|
  {
    Board(hands, stacks, CAPS3, tokens, turns, turn, DRAWS3[drawn..], DRAWS3[..drawn], noted)
  }

  const ROOT3 := Row3([[UNKNOWN, C(3), C(2), C(1), A(1)], [B(1), B(2), D(3), D(2), D(1)],
      [B(1), B(3), B(4), A(3), A(3)]],
    [0, 4, 0, 0], 8, -1, 0, 0, false)

  const A3_1 := Row3([[UNKNOWN, C(3), C(2), C(1), A(1)], [A(1), B(2), D(3), D(2), D(1)],
      [B(1), B(3), B(4), A(3), A(3)]],
    [0, 4, 0, 0], 8, -1, 2, 1, false)
  const A3_2 := Row3([[UNKNOWN, C(3), C(2), C(1), A(1)], [A(1), B(2), D(3), D(2), D(1)],
      [A(4), B(3), B(4), A(3), A(3)]],
    [0, 4, 0, 0], 8, -1, 0, 2, false)
  const A3_3 := Row3([[UNKNOWN, C(3), C(2), C(1), A(1)], [C(1), A(1), D(3), D(2), D(1)],
      [A(4), B(3), B(4), A(3), A(3)]],
    [0, 4, 0, 0], 8, -1, 2, 3, false)
  const A3_4 := Row3([[UNKNOWN, C(3), C(2), C(1), A(1)], [C(1), A(1), D(3), D(2), D(1)],
      [A(4), B(3), B(4), A(3), A(3)]],
    [0, 4, 0, 0], 8, -1, 0, 4, false)
  const A3_5 := Row3([[UNKNOWN, C(3), C(2), C(1), A(1)], [C(2), A(1), D(3), D(2), D(1)],
      [A(4), B(3), B(4), A(3), A(3)]],
    [0, 4, 1, 0], 7, -1, 2, 5, false)
  const A3_6 := Row3([[UNKNOWN, C(3), C(2), C(1), A(1)], [C(2), A(1), D(3), D(2), D(1)],
      [A(5), B(3), B(4), A(3), A(3)]],
    [0, 4, 1, 0], 8, -1, 0, 6, false)
  const A3_7 := Row3([[UNKNOWN, C(3), C(2), C(1), A(1)], [C(3), A(1), D(3), D(2), D(1)],
      [A(5), B(3), B(4), A(3), A(3)]],
    [0, 4, 2, 0], 7, -1, 2, 7, false)
  const A3_8 := Row3([[UNKNOWN, C(3), C(2), C(1), A(1)], [C(3), A(1), D(3), D(2), D(1)],
      [C(5), B(3), B(4), A(3), A(3)]],
    [0, 4, 2, 0], 8, -1, 0, 8, false)
  const A3_9 := Row3([[UNKNOWN, C(3), C(2), C(1), A(1)], [D(5), A(1), D(3), D(2), D(1)],
      [C(5), B(3), B(4), A(3), A(3)]],
    [0, 4, 3, 0], 7, -1, 2, 9, false)
  const A3_10 := Row3([[UNKNOWN, C(3), C(2), C(1), A(1)], [D(5), A(1), D(3), D(2), D(1)],
      [B(5), B(3), B(4), A(3), A(3)]],
    [0, 4, 3, 0], 8, -1, 0, 10, false)
  const A3_11 := Row3([[UNKNOWN, C(3), C(2), C(1), A(1)], [D(1), A(1), D(3), D(2), D(1)],
      [B(5), B(3), B(4), A(3), A(3)]],
    [0, 4, 3, 0], 8, -1, 2, 11, false)
  const A3_12 := Row3([[UNKNOWN, C(3), C(2), C(1), A(1)], [D(2), A(1), D(3), D(2), D(1)],
      [B(5), B(3), B(4), A(3), A(3)]],
    [0, 4, 3, 1], 6, -1, 2, 12, false)
  const A3_13 := Row3([[UNKNOWN, C(3), C(2), C(1), A(1)], [D(3), A(1), D(3), D(2), D(1)],
      [B(5), B(3), B(4), A(3), A(3)]],
    [0, 4, 3, 2], 4, -1, 2, 13, false)
  const A3_14 := Row3([[UNKNOWN, C(3), C(2), C(1), A(1)], [A(1), A(1), D(3), D(2), D(1)],
      [B(5), B(3), B(4), A(3), A(3)]],
    [0, 4, 3, 3], 2, 3, 2, 14, false)

  const V3_1 := Row3([[UNKNOWN, C(3), C(2), C(1), A(1)], [A(1), A(1), D(3), D(2), D(1)], [B(3), B(4), A(3), A(3)]],
    [0, 5, 3, 3], 3, 2, 0, 14, true)
  const V3_2 := Row3([[UNKNOWN, C(3), C(2), C(1)], [A(1), A(1), D(3), D(2), D(1)], [B(3), B(4), A(3), A(3)]],
    [1, 5, 3, 3], 3, 1, 1, 14, true)

  const B3_1 := Row3([[A(1), C(3), C(2), C(1), A(1)], [B(1), B(2), D(3), D(2), D(1)], [B(1), B(3), B(4), A(3), A(3)]],
    [0, 4, 0, 0], 8, -1, 1, 1, false)
  const B3_2 := Row3([[A(1), C(3), C(2), C(1), A(1)], [B(1), B(2), D(3), D(2), D(1)], [A(4), B(3), B(4), A(3), A(3)]],
    [0, 4, 0, 0], 8, -1, 0, 2, false)
  const B3_3 := Row3([[C(1), A(1), C(3), C(2), A(1)], [B(1), B(2), D(3), D(2), D(1)], [A(4), B(3), B(4), A(3), A(3)]],
    [0, 4, 1, 0], 8, -1, 1, 3, false)
  const B3_4 := Row3([[C(1), A(1), C(3), C(2), A(1)], [B(1), B(2), D(3), D(2), D(1)], [A(4), B(3), B(4), A(3), A(3)]],
    [0, 4, 1, 0], 8, -1, 0, 4, false)
  const B3_5 := Row3([[C(2), C(1), A(1), C(3), A(1)], [B(1), B(2), D(3), D(2), D(1)], [A(4), B(3), B(4), A(3), A(3)]],
    [0, 4, 2, 0], 8, -1, 1, 5, false)
  const B3_6 := Row3([[C(2), C(1), A(1), C(3), A(1)], [B(1), B(2), D(3), D(2), D(1)], [A(5), B(3), B(4), A(3), A(3)]],
    [0, 4, 2, 0], 8, -1, 0, 6, false)
  const B3_7 := Row3([[C(3), C(2), C(1), A(1), A(1)], [B(1), B(2), D(3), D(2), D(1)], [A(5), B(3), B(4), A(3), A(3)]],
    [0, 4, 3, 0], 8, -1, 1, 7, false)
  const B3_8 := Row3([[C(3), C(2), C(1), A(1), A(1)], [B(1), B(2), D(3), D(2), D(1)], [C(5), B(3), B(4), A(3), A(3)]],
    [0, 4, 3, 0], 8, -1, 0, 8, false)
  const B3_9 := Row3([[C(3), C(2), C(1), A(1), A(1)], [B(1), B(2), D(3), D(2), D(1)], [D(5), B(3), B(4), A(3), A(3)]],
    [0, 4, 3, 0], 7, -1, 0, 9, false)
  const B3_10 := Row3([[C(3), C(2), C(1), A(1), A(1)], [B(5), B(2), D(3), D(2), D(1)], [D(5), B(3), B(4), A(3), A(3)]],
    [0, 4, 3, 0], 7, -1, 2, 10, false)
  const B3_11 := Row3([[C(3), C(2), C(1), A(1), A(1)], [D(1), B(5), D(3), D(2), D(1)], [D(5), B(3), B(4), A(3), A(3)]],
    [0, 4, 3, 0], 6, -1, 2, 11, false)
  const B3_12 := Row3([[C(3), C(2), C(1), A(1), A(1)], [D(2), D(1), B(5), D(3), D(2)], [D(5), B(3), B(4), A(3), A(3)]],
    [0, 4, 3, 1], 4, -1, 2, 12, false)
  const B3_13 := Row3([[C(3), C(2), C(1), A(1), A(1)], [D(3), D(2), D(1), B(5), D(3)], [D(5), B(3), B(4), A(3), A(3)]],
    [0, 4, 3, 2], 2, -1, 2, 13, false)
  const B3_14 := Row3([[C(3), C(2), C(1), A(1), A(1)], [A(1), D(3), D(2), D(1), B(5)], [D(5), B(3), B(4), A(3), A(3)]],
    [0, 4, 3, 3], 0, 3, 2, 14, false)
  const B3_15 := Row3([[C(3), C(2), C(1), A(1), A(1)], [A(1), D(3), D(2), D(1), B(5)], [B(3), B(4), A(3), A(3)]],
    [0, 4, 3, 3], 1, 2, 0, 14, true)

  const W3_1 := Row3([[C(3), C(2), C(1), A(1)], [A(1), D(3), D(2), D(1), B(5)], [B(3), B(4), A(3), A(3)]],
    [1, 4, 3, 3], 1, 1, 1, 14, true)
  const W3_2 := Row3([[C(3), C(2), C(1), A(1)], [A(1), D(3), D(2), D(1)], [B(3), B(4), A(3), A(3)]],
    [1, 5, 3, 3], 2, 0, 2, 14, true)

  lemma ThreeFirst1()
    ensures Reaches(ROOT3, A3_2)
  {
    hide Reaches;
    Here(ROOT3);
    GoOn(ROOT3, ROOT3, 1, Drop(0), A3_1);
    GoOn(ROOT3, A3_1, 0, Drop(0), A3_2);
  }

  lemma ThreeFirst2()
    ensures Reaches(A3_2, A3_3)
  {
    hide Reaches;
    Here(A3_2);
    GoOn(A3_2, A3_2, 1, Drop(1), A3_3);
  }

  lemma ThreeFirst3()
    ensures Reaches(A3_3, A3_4)
  {
    hide Reaches;
    Here(A3_3);
    GoOn(A3_3, A3_3, 0, Drop(0), A3_4);
  }

  lemma ThreeFirst4()
    ensures Reaches(A3_4, A3_6)
  {
    hide Reaches;
    Here(A3_4);
    GoOn(A3_4, A3_4, 1, Put(0), A3_5);
    GoOn(A3_4, A3_5, 0, Drop(0), A3_6);
  }

  lemma ThreeFirst5()
    ensures Reaches(A3_6, A3_8)
  {
    hide Reaches;
    Here(A3_6);
    GoOn(A3_6, A3_6, 1, Put(0), A3_7);
    GoOn(A3_6, A3_7, 0, Drop(0), A3_8);
  }

  lemma ThreeFirst6()
    ensures Reaches(A3_8, A3_9)
  {
    hide Reaches;
    Here(A3_8);
    GoOn(A3_8, A3_8, 1, Put(0), A3_9);
  }

  lemma ThreeFirst7()
    ensures Reaches(A3_9, A3_10)
  {
    hide Reaches;
    Here(A3_9);
    GoOn(A3_9, A3_9, 0, Drop(0), A3_10);
  }

  lemma ThreeFirst8()
    ensures Reaches(A3_10, A3_11)
  {
    hide Reaches;
    Here(A3_10);
    GoOn(A3_10, A3_10, 1, Drop(0), A3_11);
  }

  lemma ThreeFirst9()
    ensures Reaches(A3_11, A3_12)
  {
    hide Reaches;
    Here(A3_11);
    GoOn(A3_11, A3_11, 2, Put(0), A3_12);
  }

  lemma ThreeFirst10()
    ensures Reaches(A3_12, A3_13)
  {
    hide Reaches;
    Here(A3_12);
    GoOn(A3_12, A3_12, 2, Put(0), A3_13);
  }

  lemma ThreeFirst11()
    ensures Reaches(A3_13, A3_14)
  {
    hide Reaches;
    Here(A3_13);
    GoOn(A3_13, A3_13, 2, Put(0), A3_14);
  }

  lemma ThreeFirst()
    ensures Reaches(ROOT3, A3_14)
  {
    ThreeFirst1();
    ThreeFirst2();
    ThreeFirst3();
    ThreeFirst4();
    ThreeFirst5();
    ThreeFirst6();
    ThreeFirst7();
    ThreeFirst8();
    ThreeFirst9();
    ThreeFirst10();
    ThreeFirst11();
    hide *;
    ReachesThen(ROOT3, A3_2, A3_3);
    ReachesThen(ROOT3, A3_3, A3_4);
    ReachesThen(ROOT3, A3_4, A3_6);
    ReachesThen(ROOT3, A3_6, A3_8);
    ReachesThen(ROOT3, A3_8, A3_9);
    ReachesThen(ROOT3, A3_9, A3_10);
    ReachesThen(ROOT3, A3_10, A3_11);
    ReachesThen(ROOT3, A3_11, A3_12);
    ReachesThen(ROOT3, A3_12, A3_13);
    ReachesThen(ROOT3, A3_13, A3_14);
  }

  lemma ThreeSecond1()
    ensures Reaches(ROOT3, B3_2)
  {
    hide Reaches;
    Here(ROOT3);
    GoOn(ROOT3, ROOT3, 0, Drop(0), B3_1);
    GoOn(ROOT3, B3_1, 1, Drop(0), B3_2);
  }

  lemma ThreeSecond2()
    ensures Reaches(B3_2, B3_4)
  {
    hide Reaches;
    Here(B3_2);
    GoOn(B3_2, B3_2, 0, Put(3), B3_3);
    GoOn(B3_2, B3_3, 1, Drop(0), B3_4);
  }

  lemma ThreeSecond3()
    ensures Reaches(B3_4, B3_6)
  {
    hide Reaches;
    Here(B3_4);
    GoOn(B3_4, B3_4, 0, Put(3), B3_5);
    GoOn(B3_4, B3_5, 1, Drop(0), B3_6);
  }

  lemma ThreeSecond4()
    ensures Reaches(B3_6, B3_8)
  {
    hide Reaches;
    Here(B3_6);
    GoOn(B3_6, B3_6, 0, Put(3), B3_7);
    GoOn(B3_6, B3_7, 1, Drop(0), B3_8);
  }

  lemma ThreeSecond5()
    ensures Reaches(B3_8, B3_10)
  {
    hide Reaches;
    Here(B3_8);
    GoOn(B3_8, B3_8, 2, Drop(0), B3_9);
    GoOn(B3_8, B3_9, 1, Drop(0), B3_10);
  }

  lemma ThreeSecond6()
    ensures Reaches(B3_10, B3_12)
  {
    hide Reaches;
    Here(B3_10);
    GoOn(B3_10, B3_10, 2, Drop(1), B3_11);
    GoOn(B3_10, B3_11, 2, Put(4), B3_12);
  }

  lemma ThreeSecond7()
    ensures Reaches(B3_12, B3_14)
  {
    hide Reaches;
    Here(B3_12);
    GoOn(B3_12, B3_12, 2, Put(4), B3_13);
    GoOn(B3_12, B3_13, 2, Put(4), B3_14);
  }

  lemma ThreeSecond8()
    ensures Reaches(B3_14, B3_15)
  {
    hide Reaches;
    Here(B3_14);
    GoOn(B3_14, B3_14, 0, Drop(0), B3_15);
  }

  lemma ThreeSecond()
    ensures Reaches(ROOT3, B3_15)
  {
    ThreeSecond1();
    ThreeSecond2();
    ThreeSecond3();
    ThreeSecond4();
    ThreeSecond5();
    ThreeSecond6();
    ThreeSecond7();
    ThreeSecond8();
    hide *;
    ReachesThen(ROOT3, B3_2, B3_4);
    ReachesThen(ROOT3, B3_4, B3_6);
    ReachesThen(ROOT3, B3_6, B3_8);
    ReachesThen(ROOT3, B3_8, B3_10);
    ReachesThen(ROOT3, B3_10, B3_12);
    ReachesThen(ROOT3, B3_12, B3_14);
    ReachesThen(ROOT3, B3_14, B3_15);
  }

  lemma ThreeFirstWin()
    ensures Reaches(A3_14, V3_2)
  {
    hide Reaches;
    Here(A3_14);
    GoOn(A3_14, A3_14, 0, Put(0), V3_1);
    GoOn(A3_14, V3_1, 0, Put(4), V3_2);
  }

  lemma ThreeSecondWin()
    ensures Reaches(B3_15, W3_2)
  {
    hide Reaches;
    Here(B3_15);
    GoOn(B3_15, B3_15, 0, Put(3), W3_1);
    GoOn(B3_15, W3_1, 0, Put(4), W3_2);
  }

  lemma ThreeCount(id: Id)
    ensures Among(Joined(FULL3), id) == Is(D(1), id) + Is(C(3), id) + Is(C(2), id) + Is(C(1), id) + Is(A(1), id)
              + Is(B(1), id) + Is(B(2), id) + Is(D(3), id) + Is(D(2), id) + Is(D(1), id)
              + Is(B(1), id) + Is(B(3), id) + Is(B(4), id) + Is(A(3), id) + Is(A(3), id)
    ensures Among(DRAWS3, id) == Is(A(1), id) + Is(A(4), id) + Is(C(1), id) + Is(A(4), id) + Is(C(2), id)
              + Is(A(5), id) + Is(C(3), id) + Is(C(5), id) + Is(D(5), id) + Is(B(5), id) + Is(D(1), id)
              + Is(D(2), id) + Is(D(3), id) + Is(A(1), id)
  {
    hide Among, Joined;
    ThreeHands([D(1), C(3), C(2), C(1), A(1)], [B(1), B(2), D(3), D(2), D(1)], [B(1), B(3), B(4), A(3), A(3)], id);
    AmongFive(D(1), C(3), C(2), C(1), A(1), id);
    AmongFive(B(1), B(2), D(3), D(2), D(1), id);
    AmongFive(B(1), B(3), B(4), A(3), A(3), id);
    assert DRAWS3 == [A(1), A(4), C(1), A(4), C(2)] + ([A(5), C(3), C(5), D(5), B(5)] + [D(1), D(2), D(3), A(1)]);
    AmongBoth([A(1), A(4), C(1), A(4), C(2)], [A(5), C(3), C(5), D(5), B(5)] + [D(1), D(2), D(3), A(1)], id);
    AmongBoth([A(5), C(3), C(5), D(5), B(5)], [D(1), D(2), D(3), A(1)], id);
    AmongFive(A(1), A(4), C(1), A(4), C(2), id);
    AmongFive(A(5), C(3), C(5), D(5), B(5), id);
    AmongFour(D(1), D(2), D(3), A(1), id);
  }

  lemma ThreeSuitA(id: Id)
    requires id.suit == 0 && 1 <= id.rank <= MAX_RANK
    ensures Among(Joined(FULL3), id) + Among(DRAWS3, id) + (if 0 >= id.rank then 1 else 0) + [0, 2, 0, 0, 0][id.rank - 1] == PLAIN[id.rank - 1]
  {
    ThreeCount(id);
    hide Among, Joined;
  }

  lemma ThreeSuitB(id: Id)
    requires id.suit == 1 && 1 <= id.rank <= MAX_RANK
    ensures Among(Joined(FULL3), id) + Among(DRAWS3, id) + (if 4 >= id.rank then 1 else 0) + [0, 0, 0, 0, 0][id.rank - 1] == PLAIN[id.rank - 1]
  {
    ThreeCount(id);
    hide Among, Joined;
  }

  lemma ThreeSuitC(id: Id)
    requires id.suit == 2 && 1 <= id.rank <= MAX_RANK
    ensures Among(Joined(FULL3), id) + Among(DRAWS3, id) + (if 0 >= id.rank then 1 else 0) + [1, 0, 0, 2, 0][id.rank - 1] == PLAIN[id.rank - 1]
  {
    ThreeCount(id);
    hide Among, Joined;
  }

  lemma ThreeSuitD(id: Id)
    requires id.suit == 3 && 1 <= id.rank <= MAX_RANK
    ensures Among(Joined(FULL3), id) + Among(DRAWS3, id) + (if 0 >= id.rank then 1 else 0) + [0, 0, 0, 2, 0][id.rank - 1] == PLAIN[id.rank - 1]
  {
    ThreeCount(id);
    hide Among, Joined;
  }

  lemma ThreeCards()
    ensures var st := TableOf(ROOT3, GONE3, DISCARDS3, COUNTS4); st.WellFormed() && AllCopies(ROOT3, FULL3, st)
  {
    var st := TableOf(ROOT3, GONE3, DISCARDS3, COUNTS4);
    hide Among, Joined, OrdersFrom;
    forall id | st.ValidId(id)
      ensures Among(Joined(FULL3), id) + Among(ROOT3.draws, id) + st.BaseCount(id) == st.CardCount(id)
    {
      assert ROOT3.draws == DRAWS3;
      if id.suit == 0 { ThreeSuitA(id); } else if id.suit == 1 { ThreeSuitB(id); } else if id.suit == 2 { ThreeSuitC(id); } else { ThreeSuitD(id); }
    }
  }

  lemma ThreeCaps()
    ensures var st := TableOf(ROOT3, GONE3, DISCARDS3, COUNTS4); st.WellFormed() && MaxRanksLaw(st)
  {
  }

  lemma ThreeGone()
    ensures Valid(GONE3, |COUNTS4|)
  {
  }

  lemma ThreeDraws()
    ensures Valid(DRAWS3, |COUNTS4|)
  {
  }

  lemma ThreeValid()
    ensures ValidCards(ROOT3, FULL3, GONE3, |COUNTS4|)
  {
    ThreeGone();
    ThreeDraws();
    assert ROOT3.draws == DRAWS3;
    forall h | h in FULL3
      ensures Valid(h, |COUNTS4|)
    {
    }
    hide Valid;
  }

  lemma ThreeHides()
    ensures HidesOnly(FULL3, ROOT3.hands)
  {
  }

  lemma ThreeReal()
    ensures RealBoard(3, ROOT3, FULL3, GONE3, DISCARDS3, COUNTS4)
  {
    ThreeCards();
    ThreeCaps();
    ThreeValid();
    ThreeHides();
    hide AllCopies, MaxRanksLaw, TableOf, ValidCards, HidesOnly;
  }

  lemma ThreeStuck()
    ensures Can(A3_14, Hint) && StuckBoard(Do(A3_14, Hint), A(1))
  {
  }

  lemma ThreeSame()
    ensures Can(A3_14, Hint) && SameKey(Do(A3_14, Hint), B3_15)
  {
    ThreeJoined(Do(A3_14, Hint).hands);
    ThreeJoined(B3_15.hands);
    assert Joined(Do(A3_14, Hint).hands) == [UNKNOWN] + Joined(B3_15.hands);
    UnknownFirst(Joined(B3_15.hands));
    hide Faces;
  }

  lemma ThreeOpen()
    ensures Unfinished(A3_14) && Unfinished(B3_15)
  {
  }

  lemma ThreePlayersCollide()
    ensures exists root, x, y :: RealTable(root, 3) && Collide(root, x, y)
  {
    ThreeReal();
    ThreeFirst();
    ThreeFirstWin();
    ThreeSecond();
    ThreeSecondWin();
    ThreeStuck();
    ThreeSame();
    ThreeOpen();
    assert Finished(V3_2) && V3_2.maxRanks == A3_14.maxRanks;
    assert Finished(W3_2) && W3_2.maxRanks == B3_15.maxRanks;
    hide Reaches, RealBoard, StuckBoard, SameKey, Unfinished, Can, RealTable, Collide, Identified;
    assert Colliding(ROOT3, A3_14, V3_2, B3_15, W3_2, A(1));
    hide Colliding;
    var root, x, y := RealCollision(3, ROOT3, FULL3, GONE3, DISCARDS3, COUNTS4, A3_14, V3_2, B3_15, W3_2, A(1));
  }

  // ----- Four players -----

  const DRAWS4: seq<Id> := [C(5), B(2), C(1), A(1), C(2), C(3), A(1)]
  const CAPS4: seq<nat> := [1, 4, 5]
  const DISCARDS4: seq<seq<nat>> := [[0, 2, 0, 0, 0], [0, 0, 1, 0, 1], [1, 0, 0, 1, 0]]
  const GONE4: seq<Id> := [A(2), A(2), B(1), B(3), B(5), C(1), C(4)]

  function Row4(hands: seq<seq<Id>>, stacks: seq<nat>, tokens: int, turns: int, turn: nat, drawn: nat, noted: bool): Board
    requires drawn <= |DRAWS4|
  {
    Board(hands, stacks, CAPS4, tokens, turns, turn, DRAWS4[drawn..], DRAWS4[..drawn], noted)
  }

  const ROOT4 := Row4([[C(1), C(2), C(3), C(4)], [B(4), A(3), A(4), A(1)], [B(3), B(4), A(5), B(2)],
      [A(3), A(4), B(1), B(1)]],
    [0, 1, 0], 8, -1, 0, 0, false)

  const A4_1 := Row4([[C(5), C(2), C(3), C(4)], [B(4), A(3), A(4), A(1)], [B(3), B(4), A(5), B(2)],
      [A(3), A(4), B(1), B(1)]],
    [0, 1, 1], 8, -1, 1, 1, false)
  const A4_2 := Row4([[C(5), C(2), C(3), C(4)], [B(4), A(3), A(4), A(1)], [B(3), B(4), A(5), B(2)],
      [B(2), A(4), B(1), B(1)]],
    [0, 1, 1], 7, -1, 0, 2, false)
  const A4_3 := Row4([[C(1), C(5), C(3), C(4)], [B(4), A(3), A(4), A(1)], [B(3), B(4), A(5), B(2)],
      [B(2), A(4), B(1), B(1)]],
    [0, 1, 2], 7, -1, 1, 3, false)
  const A4_4 := Row4([[C(1), C(5), C(3), C(4)], [B(4), A(3), A(4), A(1)], [B(3), B(4), A(5), B(2)],
      [A(1), A(4), B(1), B(1)]],
    [0, 2, 2], 5, -1, 0, 4, false)
  const A4_5 := Row4([[C(2), C(1), C(5), C(4)], [B(4), A(3), A(4), A(1)], [B(3), B(4), A(5), B(2)],
      [A(1), A(4), B(1), B(1)]],
    [0, 2, 3], 5, -1, 1, 5, false)
  const A4_6 := Row4([[C(3), C(2), C(1), C(5)], [B(4), A(3), A(4), A(1)], [B(3), B(4), A(5), B(2)],
      [A(1), A(4), B(1), B(1)]],
    [0, 2, 4], 2, -1, 1, 6, false)
  const A4_7 := Row4([[C(3), C(2), C(1), C(5)], [B(4), A(3), A(4), A(1)], [A(1), B(4), A(5), B(2)],
      [A(1), A(4), B(1), B(1)]],
    [0, 3, 4], 1, 4, 3, 7, false)
  const A4_8 := Row4([[C(3), C(2), C(1), C(5)], [B(4), A(3), A(4), A(1)], [A(1), B(4), A(5), B(2)], [A(4), B(1), B(1)]],
    [1, 3, 4], 1, 3, 0, 7, true)

  const V4_1 := Row4([[C(3), C(2), C(1)], [B(4), A(3), A(4), A(1)], [A(1), B(4), A(5), B(2)], [A(4), B(1), B(1)]],
    [1, 3, 5], 2, 2, 1, 7, true)
  const V4_2 := Row4([[C(3), C(2), C(1)], [A(3), A(4), A(1)], [A(1), B(4), A(5), B(2)], [A(4), B(1), B(1)]],
    [1, 4, 5], 2, 1, 2, 7, true)

  const B4_1 := Row4([[C(1), C(2), C(3), C(4)], [C(5), B(4), A(3), A(4)], [B(3), B(4), A(5), B(2)],
      [A(3), A(4), B(1), B(1)]],
    [1, 1, 0], 7, -1, 2, 1, false)
  const B4_2 := Row4([[C(1), C(2), C(3), C(4)], [C(5), B(4), A(3), A(4)], [B(3), B(4), A(5), B(2)],
      [B(2), A(4), B(1), B(1)]],
    [1, 1, 0], 7, -1, 0, 2, false)
  const B4_3 := Row4([[C(1), C(2), C(3), C(4)], [C(5), B(4), A(3), A(4)], [B(3), B(4), A(5), B(2)],
      [B(2), A(4), B(1), B(1)]],
    [1, 1, 1], 7, -1, 1, 3, false)
  const B4_4 := Row4([[C(1), C(2), C(3), C(4)], [C(5), B(4), A(3), A(4)], [A(1), B(3), B(4), A(5)],
      [B(2), A(4), B(1), B(1)]],
    [1, 2, 1], 6, -1, 3, 4, false)
  const B4_5 := Row4([[C(2), C(1), C(3), C(4)], [C(5), B(4), A(3), A(4)], [A(1), B(3), B(4), A(5)],
      [B(2), A(4), B(1), B(1)]],
    [1, 2, 2], 5, -1, 1, 5, false)
  const B4_6 := Row4([[C(3), C(2), C(1), C(4)], [C(5), B(4), A(3), A(4)], [A(1), B(3), B(4), A(5)],
      [B(2), A(4), B(1), B(1)]],
    [1, 2, 3], 2, -1, 1, 6, false)
  const B4_7 := Row4([[C(3), C(2), C(1), C(4)], [C(5), B(4), A(3), A(4)], [A(1), A(1), B(4), A(5)],
      [B(2), A(4), B(1), B(1)]],
    [1, 3, 3], 1, 4, 3, 7, false)
  const B4_8 := Row4([[C(3), C(2), C(1)], [C(5), B(4), A(3), A(4)], [A(1), A(1), B(4), A(5)], [B(2), A(4), B(1), B(1)]],
    [1, 3, 4], 0, 2, 1, 7, true)

  const W4_1 := Row4([[C(3), C(2), C(1)], [B(4), A(3), A(4)], [A(1), A(1), B(4), A(5)], [B(2), A(4), B(1), B(1)]],
    [1, 3, 5], 1, 1, 2, 7, true)
  const W4_2 := Row4([[C(3), C(2), C(1)], [B(4), A(3), A(4)], [A(1), A(1), A(5)], [B(2), A(4), B(1), B(1)]],
    [1, 4, 5], 1, 0, 3, 7, true)

  lemma FourFirst1()
    ensures Reaches(ROOT4, A4_2)
  {
    hide Reaches;
    Here(ROOT4);
    GoOn(ROOT4, ROOT4, 0, Put(0), A4_1);
    GoOn(ROOT4, A4_1, 2, Drop(0), A4_2);
  }

  lemma FourFirst2()
    ensures Reaches(A4_2, A4_4)
  {
    hide Reaches;
    Here(A4_2);
    GoOn(A4_2, A4_2, 0, Put(1), A4_3);
    GoOn(A4_2, A4_3, 2, Put(0), A4_4);
  }

  lemma FourFirst3()
    ensures Reaches(A4_4, A4_6)
  {
    hide Reaches;
    Here(A4_4);
    GoOn(A4_4, A4_4, 0, Put(2), A4_5);
    GoOn(A4_4, A4_5, 3, Put(3), A4_6);
  }

  lemma FourFirst4()
    ensures Reaches(A4_6, A4_8)
  {
    hide Reaches;
    Here(A4_6);
    GoOn(A4_6, A4_6, 1, Put(0), A4_7);
    GoOn(A4_6, A4_7, 0, Put(0), A4_8);
  }

  lemma FourFirst()
    ensures Reaches(ROOT4, A4_8)
  {
    FourFirst1();
    FourFirst2();
    FourFirst3();
    FourFirst4();
    hide *;
    ReachesThen(ROOT4, A4_2, A4_4);
    ReachesThen(ROOT4, A4_4, A4_6);
    ReachesThen(ROOT4, A4_6, A4_8);
  }

  lemma FourSecond1()
    ensures Reaches(ROOT4, B4_2)
  {
    hide Reaches;
    Here(ROOT4);
    GoOn(ROOT4, ROOT4, 1, Put(3), B4_1);
    GoOn(ROOT4, B4_1, 1, Drop(0), B4_2);
  }

  lemma FourSecond2()
    ensures Reaches(B4_2, B4_4)
  {
    hide Reaches;
    Here(B4_2);
    GoOn(B4_2, B4_2, 0, Put(0), B4_3);
    GoOn(B4_2, B4_3, 1, Put(3), B4_4);
  }

  lemma FourSecond3()
    ensures Reaches(B4_4, B4_6)
  {
    hide Reaches;
    Here(B4_4);
    GoOn(B4_4, B4_4, 1, Put(1), B4_5);
    GoOn(B4_4, B4_5, 3, Put(2), B4_6);
  }

  lemma FourSecond4()
    ensures Reaches(B4_6, B4_8)
  {
    hide Reaches;
    Here(B4_6);
    GoOn(B4_6, B4_6, 1, Put(1), B4_7);
    GoOn(B4_6, B4_7, 1, Put(3), B4_8);
  }

  lemma FourSecond()
    ensures Reaches(ROOT4, B4_8)
  {
    FourSecond1();
    FourSecond2();
    FourSecond3();
    FourSecond4();
    hide *;
    ReachesThen(ROOT4, B4_2, B4_4);
    ReachesThen(ROOT4, B4_4, B4_6);
    ReachesThen(ROOT4, B4_6, B4_8);
  }

  lemma FourFirstWin()
    ensures Reaches(A4_8, V4_2)
  {
    hide Reaches;
    Here(A4_8);
    GoOn(A4_8, A4_8, 0, Put(3), V4_1);
    GoOn(A4_8, V4_1, 0, Put(0), V4_2);
  }

  lemma FourSecondWin()
    ensures Reaches(B4_8, W4_2)
  {
    hide Reaches;
    Here(B4_8);
    GoOn(B4_8, B4_8, 0, Put(0), W4_1);
    GoOn(B4_8, W4_1, 0, Put(2), W4_2);
  }

  lemma FourCount(id: Id)
    ensures Among(Joined(ROOT4.hands), id) == Is(C(1), id) + Is(C(2), id) + Is(C(3), id) + Is(C(4), id)
              + Is(B(4), id) + Is(A(3), id) + Is(A(4), id) + Is(A(1), id)
              + Is(B(3), id) + Is(B(4), id) + Is(A(5), id) + Is(B(2), id) + Is(A(3), id) + Is(A(4), id)
              + Is(B(1), id) + Is(B(1), id)
    ensures Among(DRAWS4, id) == Is(C(5), id) + Is(B(2), id) + Is(C(1), id) + Is(A(1), id) + Is(C(2), id)
              + Is(C(3), id) + Is(A(1), id)
  {
    hide Among, Joined;
    FourHands([C(1), C(2), C(3), C(4)], [B(4), A(3), A(4), A(1)], [B(3), B(4), A(5), B(2)], [A(3), A(4), B(1), B(1)], id);
    AmongFour(C(1), C(2), C(3), C(4), id);
    AmongFour(B(4), A(3), A(4), A(1), id);
    AmongFour(B(3), B(4), A(5), B(2), id);
    AmongFour(A(3), A(4), B(1), B(1), id);
    assert DRAWS4 == [C(5), B(2), C(1), A(1)] + [C(2), C(3), A(1)];
    AmongBoth([C(5), B(2), C(1), A(1)], [C(2), C(3), A(1)], id);
    AmongFour(C(5), B(2), C(1), A(1), id);
    AmongThree(C(2), C(3), A(1), id);
  }

  lemma FourSuitA(id: Id)
    requires id.suit == 0 && 1 <= id.rank <= MAX_RANK
    ensures Among(Joined(ROOT4.hands), id) + Among(DRAWS4, id) + (if 0 >= id.rank then 1 else 0) + [0, 2, 0, 0, 0][id.rank - 1] == PLAIN[id.rank - 1]
  {
    FourCount(id);
    hide Among, Joined;
  }

  lemma FourSuitB(id: Id)
    requires id.suit == 1 && 1 <= id.rank <= MAX_RANK
    ensures Among(Joined(ROOT4.hands), id) + Among(DRAWS4, id) + (if 1 >= id.rank then 1 else 0) + [0, 0, 1, 0, 1][id.rank - 1] == PLAIN[id.rank - 1]
  {
    FourCount(id);
    hide Among, Joined;
  }

  lemma FourSuitC(id: Id)
    requires id.suit == 2 && 1 <= id.rank <= MAX_RANK
    ensures Among(Joined(ROOT4.hands), id) + Among(DRAWS4, id) + (if 0 >= id.rank then 1 else 0) + [1, 0, 0, 1, 0][id.rank - 1] == PLAIN[id.rank - 1]
  {
    FourCount(id);
    hide Among, Joined;
  }

  lemma FourCards()
    ensures var st := TableOf(ROOT4, GONE4, DISCARDS4, COUNTS3); st.WellFormed() && AllCopies(ROOT4, ROOT4.hands, st)
  {
    var st := TableOf(ROOT4, GONE4, DISCARDS4, COUNTS3);
    hide Among, Joined, OrdersFrom;
    forall id | st.ValidId(id)
      ensures Among(Joined(ROOT4.hands), id) + Among(ROOT4.draws, id) + st.BaseCount(id) == st.CardCount(id)
    {
      assert ROOT4.draws == DRAWS4;
      if id.suit == 0 { FourSuitA(id); } else if id.suit == 1 { FourSuitB(id); } else { FourSuitC(id); }
    }
  }

  lemma FourCaps()
    ensures var st := TableOf(ROOT4, GONE4, DISCARDS4, COUNTS3); st.WellFormed() && MaxRanksLaw(st)
  {
  }

  lemma FourGone()
    ensures Valid(GONE4, |COUNTS3|)
  {
  }

  lemma FourDraws()
    ensures Valid(DRAWS4, |COUNTS3|)
  {
  }

  lemma FourValid()
    ensures ValidCards(ROOT4, ROOT4.hands, GONE4, |COUNTS3|)
  {
    FourGone();
    FourDraws();
    assert ROOT4.draws == DRAWS4;
    forall h | h in ROOT4.hands
      ensures Valid(h, |COUNTS3|)
    {
    }
    hide Valid;
  }

  lemma FourHides()
    ensures HidesOnly(ROOT4.hands, ROOT4.hands)
  {
  }

  lemma FourReal()
    ensures RealBoard(4, ROOT4, ROOT4.hands, GONE4, DISCARDS4, COUNTS3)
  {
    FourCards();
    FourCaps();
    FourValid();
    FourHides();
    hide AllCopies, MaxRanksLaw, TableOf, ValidCards, HidesOnly;
  }

  lemma FourStuck()
    ensures Can(A4_8, Hint) && StuckBoard(Do(A4_8, Hint), B(4))
  {
  }

  lemma FourSame()
    ensures Can(A4_8, Hint) && SameKey(Do(A4_8, Hint), B4_8)
  {
    assert Joined(Do(A4_8, Hint).hands) == Joined(B4_8.hands);
  }

  lemma FourOpen()
    ensures Unfinished(A4_8) && Unfinished(B4_8)
  {
  }

  lemma FourPlayersCollide()
    ensures exists root, x, y :: RealTable(root, 4) && Identified(root.st) && Collide(root, x, y)
  {
    FourReal();
    FourFirst();
    FourFirstWin();
    FourSecond();
    FourSecondWin();
    FourStuck();
    FourSame();
    FourOpen();
    assert Finished(V4_2) && V4_2.maxRanks == A4_8.maxRanks;
    assert Finished(W4_2) && W4_2.maxRanks == B4_8.maxRanks;
    hide Reaches, RealBoard, StuckBoard, SameKey, Unfinished, Can, RealTable, Collide, Identified;
    assert Colliding(ROOT4, A4_8, V4_2, B4_8, W4_2, B(4));
    hide Colliding;
    var root, x, y := RealCollision(4, ROOT4, ROOT4.hands, GONE4, DISCARDS4, COUNTS3, A4_8, V4_2, B4_8, W4_2, B(4));
  }

  // ----- Five players -----

  const DRAWS5: seq<Id> := [C(5), B(2), D(1), C(1), A(1), C(1), C(2), C(4), C(3), A(1)]
  const CAPS5: seq<nat> := [1, 4, 5, 5]
  const DISCARDS5: seq<seq<nat>> := [[0, 2, 0, 0, 0], [0, 0, 1, 0, 1], [0, 0, 0, 0, 0], [0, 0, 0, 0, 0]]
  const GONE5: seq<Id> := [A(2), A(2), B(1), B(3), B(5), D(1), D(2), D(3), D(4), D(5)]

  function Row5(hands: seq<seq<Id>>, stacks: seq<nat>, tokens: int, turns: int, turn: nat, drawn: nat, noted: bool): Board
    requires drawn <= |DRAWS5|
  {
    Board(hands, stacks, CAPS5, tokens, turns, turn, DRAWS5[drawn..], DRAWS5[..drawn], noted)
  }

  const ROOT5 := Row5([[C(1), C(2), C(3), C(4)], [B(4), A(3), A(4), A(1)], [B(3), B(4), A(5), B(2)],
      [A(3), A(4), B(1), B(1)], [D(1), D(2), D(3), D(4)]],
    [0, 1, 0, 5], 8, -1, 0, 0, false)

  const A5_1 := Row5([[C(5), C(2), C(3), C(4)], [B(4), A(3), A(4), A(1)], [B(3), B(4), A(5), B(2)],
      [A(3), A(4), B(1), B(1)], [D(1), D(2), D(3), D(4)]],
    [0, 1, 1, 5], 8, -1, 1, 1, false)
  const A5_2 := Row5([[C(5), C(2), C(3), C(4)], [B(4), A(3), A(4), A(1)], [B(3), B(4), A(5), B(2)],
      [B(2), A(4), B(1), B(1)], [D(1), D(2), D(3), D(4)]],
    [0, 1, 1, 5], 7, -1, 4, 2, false)
  const A5_3 := Row5([[C(5), C(2), C(3), C(4)], [B(4), A(3), A(4), A(1)], [B(3), B(4), A(5), B(2)],
      [B(2), A(4), B(1), B(1)], [D(1), D(2), D(3), D(4)]],
    [0, 1, 1, 5], 8, -1, 0, 3, false)
  const A5_4 := Row5([[C(1), C(5), C(3), C(4)], [B(4), A(3), A(4), A(1)], [B(3), B(4), A(5), B(2)],
      [B(2), A(4), B(1), B(1)], [D(1), D(2), D(3), D(4)]],
    [0, 1, 2, 5], 8, -1, 1, 4, false)
  const A5_5 := Row5([[C(1), C(5), C(3), C(4)], [B(4), A(3), A(4), A(1)], [B(3), B(4), A(5), B(2)],
      [A(1), A(4), B(1), B(1)], [D(1), D(2), D(3), D(4)]],
    [0, 2, 2, 5], 6, -1, 4, 5, false)
  const A5_6 := Row5([[C(1), C(5), C(3), C(4)], [B(4), A(3), A(4), A(1)], [B(3), B(4), A(5), B(2)],
      [A(1), A(4), B(1), B(1)], [C(1), D(2), D(3), D(4)]],
    [0, 2, 2, 5], 7, -1, 0, 6, false)
  const A5_7 := Row5([[C(2), C(1), C(5), C(4)], [B(4), A(3), A(4), A(1)], [B(3), B(4), A(5), B(2)],
      [A(1), A(4), B(1), B(1)], [C(1), D(2), D(3), D(4)]],
    [0, 2, 3, 5], 7, -1, 1, 7, false)
  const A5_8 := Row5([[C(2), C(1), C(5), C(4)], [B(4), A(3), A(4), A(1)], [B(3), B(4), A(5), B(2)],
      [A(1), A(4), B(1), B(1)], [C(4), D(2), D(3), D(4)]],
    [0, 2, 3, 5], 5, -1, 0, 8, false)
  const A5_9 := Row5([[C(3), C(2), C(1), C(5)], [B(4), A(3), A(4), A(1)], [B(3), B(4), A(5), B(2)],
      [A(1), A(4), B(1), B(1)], [C(4), D(2), D(3), D(4)]],
    [0, 2, 4, 5], 5, -1, 1, 9, false)
  const A5_10 := Row5([[C(3), C(2), C(1), C(5)], [B(4), A(3), A(4), A(1)], [A(1), B(4), A(5), B(2)],
      [A(1), A(4), B(1), B(1)], [C(4), D(2), D(3), D(4)]],
    [0, 3, 4, 5], 4, 5, 3, 10, false)
  const A5_11 := Row5([[C(3), C(2), C(1), C(5)], [B(4), A(3), A(4), A(1)], [A(1), B(4), A(5), B(2)],
      [A(4), B(1), B(1)], [C(4), D(2), D(3), D(4)]],
    [1, 3, 4, 5], 4, 4, 4, 10, true)
  const MID5 := Row5([[C(3), C(2), C(1), C(5)], [B(4), A(3), A(4), A(1)], [A(1), B(4), A(5), B(2)],
      [A(4), B(1), B(1)], [C(4), D(2), D(3), D(4)]],
    [1, 3, 4, 5], 3, 3, 0, 10, true)

  const V5_1 := Row5([[C(3), C(2), C(1)], [B(4), A(3), A(4), A(1)], [A(1), B(4), A(5), B(2)], [A(4), B(1), B(1)],
      [C(4), D(2), D(3), D(4)]],
    [1, 3, 5, 5], 4, 2, 1, 10, true)
  const V5_2 := Row5([[C(3), C(2), C(1)], [A(3), A(4), A(1)], [A(1), B(4), A(5), B(2)], [A(4), B(1), B(1)],
      [C(4), D(2), D(3), D(4)]],
    [1, 4, 5, 5], 4, 1, 2, 10, true)

  const B5_1 := Row5([[C(1), C(2), C(3), C(4)], [C(5), B(4), A(3), A(4)], [B(3), B(4), A(5), B(2)],
      [A(3), A(4), B(1), B(1)], [D(1), D(2), D(3), D(4)]],
    [1, 1, 0, 5], 7, -1, 2, 1, false)
  const B5_2 := Row5([[C(1), C(2), C(3), C(4)], [C(5), B(4), A(3), A(4)], [B(3), B(4), A(5), B(2)],
      [B(2), A(4), B(1), B(1)], [D(1), D(2), D(3), D(4)]],
    [1, 1, 0, 5], 7, -1, 4, 2, false)
  const B5_3 := Row5([[C(1), C(2), C(3), C(4)], [C(5), B(4), A(3), A(4)], [B(3), B(4), A(5), B(2)],
      [B(2), A(4), B(1), B(1)], [D(1), D(2), D(3), D(4)]],
    [1, 1, 0, 5], 8, -1, 0, 3, false)
  const B5_4 := Row5([[C(1), C(2), C(3), C(4)], [C(5), B(4), A(3), A(4)], [B(3), B(4), A(5), B(2)],
      [B(2), A(4), B(1), B(1)], [D(1), D(2), D(3), D(4)]],
    [1, 1, 1, 5], 8, -1, 1, 4, false)
  const B5_5 := Row5([[C(1), C(2), C(3), C(4)], [C(5), B(4), A(3), A(4)], [A(1), B(3), B(4), A(5)],
      [B(2), A(4), B(1), B(1)], [D(1), D(2), D(3), D(4)]],
    [1, 2, 1, 5], 7, -1, 3, 5, false)
  const B5_6 := Row5([[C(1), C(2), C(3), C(4)], [C(5), B(4), A(3), A(4)], [A(1), B(3), B(4), A(5)],
      [B(2), A(4), B(1), B(1)], [C(1), D(2), D(3), D(4)]],
    [1, 2, 1, 5], 7, -1, 0, 6, false)
  const B5_7 := Row5([[C(2), C(1), C(3), C(4)], [C(5), B(4), A(3), A(4)], [A(1), B(3), B(4), A(5)],
      [B(2), A(4), B(1), B(1)], [C(1), D(2), D(3), D(4)]],
    [1, 2, 2, 5], 7, -1, 1, 7, false)
  const B5_8 := Row5([[C(2), C(1), C(3), C(4)], [C(5), B(4), A(3), A(4)], [A(1), B(3), B(4), A(5)],
      [B(2), A(4), B(1), B(1)], [C(4), D(2), D(3), D(4)]],
    [1, 2, 2, 5], 5, -1, 0, 8, false)
  const B5_9 := Row5([[C(3), C(2), C(1), C(4)], [C(5), B(4), A(3), A(4)], [A(1), B(3), B(4), A(5)],
      [B(2), A(4), B(1), B(1)], [C(4), D(2), D(3), D(4)]],
    [1, 2, 3, 5], 5, -1, 1, 9, false)
  const B5_10 := Row5([[C(3), C(2), C(1), C(4)], [C(5), B(4), A(3), A(4)], [A(1), A(1), B(4), A(5)],
      [B(2), A(4), B(1), B(1)], [C(4), D(2), D(3), D(4)]],
    [1, 3, 3, 5], 4, 5, 3, 10, false)
  const B5_11 := Row5([[C(3), C(2), C(1)], [C(5), B(4), A(3), A(4)], [A(1), A(1), B(4), A(5)],
      [B(2), A(4), B(1), B(1)], [C(4), D(2), D(3), D(4)]],
    [1, 3, 4, 5], 2, 2, 1, 10, true)

  const W5_1 := Row5([[C(3), C(2), C(1)], [B(4), A(3), A(4)], [A(1), A(1), B(4), A(5)], [B(2), A(4), B(1), B(1)],
      [C(4), D(2), D(3), D(4)]],
    [1, 3, 5, 5], 3, 1, 2, 10, true)
  const W5_2 := Row5([[C(3), C(2), C(1)], [B(4), A(3), A(4)], [A(1), A(1), A(5)], [B(2), A(4), B(1), B(1)],
      [C(4), D(2), D(3), D(4)]],
    [1, 4, 5, 5], 3, 0, 3, 10, true)

  lemma FiveFirst1()
    ensures Reaches(ROOT5, A5_2)
  {
    hide Reaches;
    Here(ROOT5);
    GoOn(ROOT5, ROOT5, 0, Put(0), A5_1);
    GoOn(ROOT5, A5_1, 2, Drop(0), A5_2);
  }

  lemma FiveFirst2()
    ensures Reaches(A5_2, A5_4)
  {
    hide Reaches;
    Here(A5_2);
    GoOn(A5_2, A5_2, 0, Drop(0), A5_3);
    GoOn(A5_2, A5_3, 0, Put(1), A5_4);
  }

  lemma FiveFirst3()
    ensures Reaches(A5_4, A5_6)
  {
    hide Reaches;
    Here(A5_4);
    GoOn(A5_4, A5_4, 2, Put(0), A5_5);
    GoOn(A5_4, A5_5, 0, Drop(0), A5_6);
  }

  lemma FiveFirst4()
    ensures Reaches(A5_6, A5_8)
  {
    hide Reaches;
    Here(A5_6);
    GoOn(A5_6, A5_6, 0, Put(2), A5_7);
    GoOn(A5_6, A5_7, 3, Drop(0), A5_8);
  }

  lemma FiveFirst5()
    ensures Reaches(A5_8, A5_10)
  {
    hide Reaches;
    Here(A5_8);
    GoOn(A5_8, A5_8, 0, Put(3), A5_9);
    GoOn(A5_8, A5_9, 1, Put(0), A5_10);
  }

  lemma FiveFirst6()
    ensures Reaches(A5_10, A5_11)
  {
    hide Reaches;
    Here(A5_10);
    GoOn(A5_10, A5_10, 0, Put(0), A5_11);
  }

  lemma FiveFirst()
    ensures Reaches(ROOT5, MID5)
  {
    FiveFirst1();
    FiveFirst2();
    FiveFirst3();
    FiveFirst4();
    FiveFirst5();
    FiveFirst6();
    Wait(A5_11, 1);
    assert Waiting(A5_11, 1) == MID5;
    hide *;
    ReachesThen(ROOT5, A5_2, A5_4);
    ReachesThen(ROOT5, A5_4, A5_6);
    ReachesThen(ROOT5, A5_6, A5_8);
    ReachesThen(ROOT5, A5_8, A5_10);
    ReachesThen(ROOT5, A5_10, A5_11);
    ReachesThen(ROOT5, A5_11, MID5);
  }

  lemma FiveSecond1()
    ensures Reaches(ROOT5, B5_2)
  {
    hide Reaches;
    Here(ROOT5);
    GoOn(ROOT5, ROOT5, 1, Put(3), B5_1);
    GoOn(ROOT5, B5_1, 1, Drop(0), B5_2);
  }

  lemma FiveSecond2()
    ensures Reaches(B5_2, B5_4)
  {
    hide Reaches;
    Here(B5_2);
    GoOn(B5_2, B5_2, 0, Drop(0), B5_3);
    GoOn(B5_2, B5_3, 0, Put(0), B5_4);
  }

  lemma FiveSecond3()
    ensures Reaches(B5_4, B5_6)
  {
    hide Reaches;
    Here(B5_4);
    GoOn(B5_4, B5_4, 1, Put(3), B5_5);
    GoOn(B5_4, B5_5, 1, Drop(0), B5_6);
  }

  lemma FiveSecond4()
    ensures Reaches(B5_6, B5_8)
  {
    hide Reaches;
    Here(B5_6);
    GoOn(B5_6, B5_6, 0, Put(1), B5_7);
    GoOn(B5_6, B5_7, 3, Drop(0), B5_8);
  }

  lemma FiveSecond5()
    ensures Reaches(B5_8, B5_10)
  {
    hide Reaches;
    Here(B5_8);
    GoOn(B5_8, B5_8, 0, Put(2), B5_9);
    GoOn(B5_8, B5_9, 1, Put(1), B5_10);
  }

  lemma FiveSecond6()
    ensures Reaches(B5_10, B5_11)
  {
    hide Reaches;
    Here(B5_10);
    GoOn(B5_10, B5_10, 2, Put(3), B5_11);
  }

  lemma FiveSecond()
    ensures Reaches(ROOT5, B5_11)
  {
    FiveSecond1();
    FiveSecond2();
    FiveSecond3();
    FiveSecond4();
    FiveSecond5();
    FiveSecond6();
    hide *;
    ReachesThen(ROOT5, B5_2, B5_4);
    ReachesThen(ROOT5, B5_4, B5_6);
    ReachesThen(ROOT5, B5_6, B5_8);
    ReachesThen(ROOT5, B5_8, B5_10);
    ReachesThen(ROOT5, B5_10, B5_11);
  }

  lemma FiveFirstWin()
    ensures Reaches(MID5, V5_2)
  {
    hide Reaches;
    Here(MID5);
    GoOn(MID5, MID5, 0, Put(3), V5_1);
    GoOn(MID5, V5_1, 0, Put(0), V5_2);
  }

  lemma FiveSecondWin()
    ensures Reaches(B5_11, W5_2)
  {
    hide Reaches;
    Here(B5_11);
    GoOn(B5_11, B5_11, 0, Put(0), W5_1);
    GoOn(B5_11, W5_1, 0, Put(2), W5_2);
  }

  lemma FiveCount(id: Id)
    ensures Among(Joined(ROOT5.hands), id) == Is(C(1), id) + Is(C(2), id) + Is(C(3), id) + Is(C(4), id)
              + Is(B(4), id) + Is(A(3), id) + Is(A(4), id) + Is(A(1), id)
              + Is(B(3), id) + Is(B(4), id) + Is(A(5), id) + Is(B(2), id) + Is(A(3), id) + Is(A(4), id)
              + Is(B(1), id) + Is(B(1), id)
              + Is(D(1), id) + Is(D(2), id) + Is(D(3), id) + Is(D(4), id)
    ensures Among(DRAWS5, id) == Is(C(5), id) + Is(B(2), id) + Is(D(1), id) + Is(C(1), id) + Is(A(1), id)
              + Is(C(1), id) + Is(C(2), id) + Is(C(4), id) + Is(C(3), id) + Is(A(1), id)
  {
    hide Among, Joined;
    FiveHands([C(1), C(2), C(3), C(4)], [B(4), A(3), A(4), A(1)], [B(3), B(4), A(5), B(2)], [A(3), A(4), B(1), B(1)], [D(1), D(2), D(3), D(4)], id);
    AmongFour(C(1), C(2), C(3), C(4), id);
    AmongFour(B(4), A(3), A(4), A(1), id);
    AmongFour(B(3), B(4), A(5), B(2), id);
    AmongFour(A(3), A(4), B(1), B(1), id);
    AmongFour(D(1), D(2), D(3), D(4), id);
    assert DRAWS5 == [C(5), B(2), D(1), C(1)] + ([A(1), C(1), C(2), C(4)] + [C(3), A(1)]);
    AmongBoth([C(5), B(2), D(1), C(1)], [A(1), C(1), C(2), C(4)] + [C(3), A(1)], id);
    AmongBoth([A(1), C(1), C(2), C(4)], [C(3), A(1)], id);
    AmongFour(C(5), B(2), D(1), C(1), id);
    AmongFour(A(1), C(1), C(2), C(4), id);
    AmongTwo(C(3), A(1), id);
  }

  lemma FiveSuitA(id: Id)
    requires id.suit == 0 && 1 <= id.rank <= MAX_RANK
    ensures Among(Joined(ROOT5.hands), id) + Among(DRAWS5, id) + (if 0 >= id.rank then 1 else 0) + [0, 2, 0, 0, 0][id.rank - 1] == PLAIN[id.rank - 1]
  {
    FiveCount(id);
    hide Among, Joined;
  }

  lemma FiveSuitB(id: Id)
    requires id.suit == 1 && 1 <= id.rank <= MAX_RANK
    ensures Among(Joined(ROOT5.hands), id) + Among(DRAWS5, id) + (if 1 >= id.rank then 1 else 0) + [0, 0, 1, 0, 1][id.rank - 1] == PLAIN[id.rank - 1]
  {
    FiveCount(id);
    hide Among, Joined;
  }

  lemma FiveSuitC(id: Id)
    requires id.suit == 2 && 1 <= id.rank <= MAX_RANK
    ensures Among(Joined(ROOT5.hands), id) + Among(DRAWS5, id) + (if 0 >= id.rank then 1 else 0) + [0, 0, 0, 0, 0][id.rank - 1] == PLAIN[id.rank - 1]
  {
    FiveCount(id);
    hide Among, Joined;
  }

  lemma FiveSuitD(id: Id)
    requires id.suit == 3 && 1 <= id.rank <= MAX_RANK
    ensures Among(Joined(ROOT5.hands), id) + Among(DRAWS5, id) + (if 5 >= id.rank then 1 else 0) + [0, 0, 0, 0, 0][id.rank - 1] == PLAIN[id.rank - 1]
  {
    FiveCount(id);
    hide Among, Joined;
  }

  lemma FiveCards()
    ensures var st := TableOf(ROOT5, GONE5, DISCARDS5, COUNTS4); st.WellFormed() && AllCopies(ROOT5, ROOT5.hands, st)
  {
    var st := TableOf(ROOT5, GONE5, DISCARDS5, COUNTS4);
    hide Among, Joined, OrdersFrom;
    forall id | st.ValidId(id)
      ensures Among(Joined(ROOT5.hands), id) + Among(ROOT5.draws, id) + st.BaseCount(id) == st.CardCount(id)
    {
      assert ROOT5.draws == DRAWS5;
      if id.suit == 0 { FiveSuitA(id); } else if id.suit == 1 { FiveSuitB(id); } else if id.suit == 2 { FiveSuitC(id); } else { FiveSuitD(id); }
    }
  }

  lemma FiveCaps()
    ensures var st := TableOf(ROOT5, GONE5, DISCARDS5, COUNTS4); st.WellFormed() && MaxRanksLaw(st)
  {
  }

  lemma FiveGone()
    ensures Valid(GONE5, |COUNTS4|)
  {
  }

  lemma FiveDraws()
    ensures Valid(DRAWS5, |COUNTS4|)
  {
  }

  lemma FiveValid()
    ensures ValidCards(ROOT5, ROOT5.hands, GONE5, |COUNTS4|)
  {
    FiveGone();
    FiveDraws();
    assert ROOT5.draws == DRAWS5;
    forall h | h in ROOT5.hands
      ensures Valid(h, |COUNTS4|)
    {
    }
    hide Valid;
  }

  lemma FiveHides()
    ensures HidesOnly(ROOT5.hands, ROOT5.hands)
  {
  }

  lemma FiveReal()
    ensures RealBoard(5, ROOT5, ROOT5.hands, GONE5, DISCARDS5, COUNTS4)
  {
    FiveCards();
    FiveCaps();
    FiveValid();
    FiveHides();
    hide AllCopies, MaxRanksLaw, TableOf, ValidCards, HidesOnly;
  }

  lemma FiveStuck()
    ensures Can(MID5, Hint) && StuckBoard(Do(MID5, Hint), B(4))
  {
  }

  lemma FiveSame()
    ensures Can(MID5, Hint) && SameKey(Do(MID5, Hint), B5_11)
  {
    assert Joined(Do(MID5, Hint).hands) == Joined(B5_11.hands);
  }

  lemma FiveOpen()
    ensures Unfinished(MID5) && Unfinished(B5_11)
  {
  }

  lemma FivePlayersCollide()
    ensures exists root, x, y :: RealTable(root, 5) && Identified(root.st) && Collide(root, x, y)
  {
    FiveReal();
    FiveFirst();
    FiveFirstWin();
    FiveSecond();
    FiveSecondWin();
    FiveStuck();
    FiveSame();
    FiveOpen();
    assert Finished(V5_2) && V5_2.maxRanks == MID5.maxRanks;
    assert Finished(W5_2) && W5_2.maxRanks == B5_11.maxRanks;
    hide Reaches, RealBoard, StuckBoard, SameKey, Unfinished, Can, RealTable, Collide, Identified;
    assert Colliding(ROOT5, MID5, V5_2, B5_11, W5_2, B(4));
    hide Colliding;
    var root, x, y := RealCollision(5, ROOT5, ROOT5.hands, GONE5, DISCARDS5, COUNTS4, MID5, V5_2, B5_11, W5_2, B(4));
  }

  // ----- Six players -----

  const DRAWS6: seq<Id> := [C(5), B(2), D(1), C(1), A(1), C(1), C(2), A(1)]
  const CAPS6: seq<nat> := [1, 4, 5, 5]
  const DISCARDS6: seq<seq<nat>> := [[0, 2, 0, 0, 0], [0, 0, 1, 0, 1], [0, 0, 1, 1, 0], [0, 0, 0, 1, 0]]
  const GONE6: seq<Id> := [A(2), A(2), B(1), B(3), B(5), C(1), C(3), C(4), D(1), D(2), D(3), D(4), D(4), D(5)]

  function Row6(hands: seq<seq<Id>>, stacks: seq<nat>, tokens: int, turns: int, turn: nat, drawn: nat, noted: bool): Board
    requires drawn <= |DRAWS6|
  {
    Board(hands, stacks, CAPS6, tokens, turns, turn, DRAWS6[drawn..], DRAWS6[..drawn], noted)
  }

  const ROOT6 := Row6([[C(2), C(3), C(4)], [B(4), A(3), A(1)], [B(3), B(4), B(2)], [A(3), A(4), B(1)],
      [D(1), D(2), D(3)], [A(4), A(5), B(1)]],
    [0, 1, 1, 5], 8, -1, 0, 0, false)

  const A6_1 := Row6([[C(5), C(3), C(4)], [B(4), A(3), A(1)], [B(3), B(4), B(2)], [A(3), A(4), B(1)],
      [D(1), D(2), D(3)], [A(4), A(5), B(1)]],
    [0, 1, 2, 5], 8, -1, 1, 1, false)
  const A6_2 := Row6([[C(5), C(3), C(4)], [B(4), A(3), A(1)], [B(3), B(4), B(2)], [B(2), A(4), B(1)],
      [D(1), D(2), D(3)], [A(4), A(5), B(1)]],
    [0, 1, 2, 5], 7, -1, 4, 2, false)
  const A6_3 := Row6([[C(5), C(3), C(4)], [B(4), A(3), A(1)], [B(3), B(4), B(2)], [B(2), A(4), B(1)],
      [D(1), D(2), D(3)], [A(4), A(5), B(1)]],
    [0, 1, 2, 5], 8, -1, 5, 3, false)
  const A6_4 := Row6([[C(1), C(5), C(4)], [B(4), A(3), A(1)], [B(3), B(4), B(2)], [B(2), A(4), B(1)],
      [D(1), D(2), D(3)], [A(4), A(5), B(1)]],
    [0, 1, 3, 5], 7, -1, 1, 4, false)
  const A6_5 := Row6([[C(1), C(5), C(4)], [B(4), A(3), A(1)], [B(3), B(4), B(2)], [A(1), A(4), B(1)],
      [D(1), D(2), D(3)], [A(4), A(5), B(1)]],
    [0, 2, 3, 5], 5, -1, 4, 5, false)
  const A6_6 := Row6([[C(1), C(5), C(4)], [B(4), A(3), A(1)], [B(3), B(4), B(2)], [A(1), A(4), B(1)],
      [C(1), D(2), D(3)], [A(4), A(5), B(1)]],
    [0, 2, 3, 5], 6, -1, 5, 6, false)
  const A6_7 := Row6([[C(2), C(1), C(5)], [B(4), A(3), A(1)], [B(3), B(4), B(2)], [A(1), A(4), B(1)],
      [C(1), D(2), D(3)], [A(4), A(5), B(1)]],
    [0, 2, 4, 5], 5, -1, 1, 7, false)
  const A6_8 := Row6([[C(2), C(1), C(5)], [B(4), A(3), A(1)], [A(1), B(4), B(2)], [A(1), A(4), B(1)],
      [C(1), D(2), D(3)], [A(4), A(5), B(1)]],
    [0, 3, 4, 5], 4, 6, 3, 8, false)
  const A6_9 := Row6([[C(2), C(1), C(5)], [B(4), A(3), A(1)], [A(1), B(4), B(2)], [A(4), B(1)],
      [C(1), D(2), D(3)], [A(4), A(5), B(1)]],
    [1, 3, 4, 5], 4, 5, 4, 8, true)
  const MID6 := Row6([[C(2), C(1), C(5)], [B(4), A(3), A(1)], [A(1), B(4), B(2)], [A(4), B(1)],
      [C(1), D(2), D(3)], [A(4), A(5), B(1)]],
    [1, 3, 4, 5], 2, 3, 0, 8, true)

  const V6_1 := Row6([[C(2), C(1)], [B(4), A(3), A(1)], [A(1), B(4), B(2)], [A(4), B(1)], [C(1), D(2), D(3)],
      [A(4), A(5), B(1)]],
    [1, 3, 5, 5], 3, 2, 1, 8, true)
  const V6_2 := Row6([[C(2), C(1)], [A(3), A(1)], [A(1), B(4), B(2)], [A(4), B(1)], [C(1), D(2), D(3)],
      [A(4), A(5), B(1)]],
    [1, 4, 5, 5], 3, 1, 2, 8, true)

  const B6_1 := Row6([[C(2), C(3), C(4)], [C(5), B(4), A(3)], [B(3), B(4), B(2)], [A(3), A(4), B(1)],
      [D(1), D(2), D(3)], [A(4), A(5), B(1)]],
    [1, 1, 1, 5], 7, -1, 2, 1, false)
  const B6_2 := Row6([[C(2), C(3), C(4)], [C(5), B(4), A(3)], [B(3), B(4), B(2)], [B(2), A(4), B(1)],
      [D(1), D(2), D(3)], [A(4), A(5), B(1)]],
    [1, 1, 1, 5], 7, -1, 4, 2, false)
  const B6_3 := Row6([[C(2), C(3), C(4)], [C(5), B(4), A(3)], [B(3), B(4), B(2)], [B(2), A(4), B(1)],
      [D(1), D(2), D(3)], [A(4), A(5), B(1)]],
    [1, 1, 1, 5], 8, -1, 5, 3, false)
  const B6_4 := Row6([[C(1), C(3), C(4)], [C(5), B(4), A(3)], [B(3), B(4), B(2)], [B(2), A(4), B(1)],
      [D(1), D(2), D(3)], [A(4), A(5), B(1)]],
    [1, 1, 2, 5], 7, -1, 1, 4, false)
  const B6_5 := Row6([[C(1), C(3), C(4)], [C(5), B(4), A(3)], [A(1), B(3), B(4)], [B(2), A(4), B(1)],
      [D(1), D(2), D(3)], [A(4), A(5), B(1)]],
    [1, 2, 2, 5], 6, -1, 3, 5, false)
  const B6_6 := Row6([[C(1), C(3), C(4)], [C(5), B(4), A(3)], [A(1), B(3), B(4)], [B(2), A(4), B(1)],
      [C(1), D(2), D(3)], [A(4), A(5), B(1)]],
    [1, 2, 2, 5], 6, -1, 5, 6, false)
  const B6_7 := Row6([[C(2), C(1), C(4)], [C(5), B(4), A(3)], [A(1), B(3), B(4)], [B(2), A(4), B(1)],
      [C(1), D(2), D(3)], [A(4), A(5), B(1)]],
    [1, 2, 3, 5], 5, -1, 1, 7, false)
  const B6_8 := Row6([[C(2), C(1), C(4)], [C(5), B(4), A(3)], [A(1), A(1), B(4)], [B(2), A(4), B(1)],
      [C(1), D(2), D(3)], [A(4), A(5), B(1)]],
    [1, 3, 3, 5], 4, 6, 3, 8, false)
  const B6_9 := Row6([[C(2), C(1)], [C(5), B(4), A(3)], [A(1), A(1), B(4)], [B(2), A(4), B(1)],
      [C(1), D(2), D(3)], [A(4), A(5), B(1)]],
    [1, 3, 4, 5], 1, 2, 1, 8, true)

  const W6_1 := Row6([[C(2), C(1)], [B(4), A(3)], [A(1), A(1), B(4)], [B(2), A(4), B(1)], [C(1), D(2), D(3)],
      [A(4), A(5), B(1)]],
    [1, 3, 5, 5], 2, 1, 2, 8, true)
  const W6_2 := Row6([[C(2), C(1)], [B(4), A(3)], [A(1), A(1)], [B(2), A(4), B(1)], [C(1), D(2), D(3)],
      [A(4), A(5), B(1)]],
    [1, 4, 5, 5], 2, 0, 3, 8, true)

  lemma SixFirst1()
    ensures Reaches(ROOT6, A6_2)
  {
    hide Reaches;
    Here(ROOT6);
    GoOn(ROOT6, ROOT6, 0, Put(0), A6_1);
    GoOn(ROOT6, A6_1, 2, Drop(0), A6_2);
  }

  lemma SixFirst2()
    ensures Reaches(A6_2, A6_4)
  {
    hide Reaches;
    Here(A6_2);
    GoOn(A6_2, A6_2, 0, Drop(0), A6_3);
    GoOn(A6_2, A6_3, 1, Put(1), A6_4);
  }

  lemma SixFirst3()
    ensures Reaches(A6_4, A6_6)
  {
    hide Reaches;
    Here(A6_4);
    GoOn(A6_4, A6_4, 2, Put(0), A6_5);
    GoOn(A6_4, A6_5, 0, Drop(0), A6_6);
  }

  lemma SixFirst4()
    ensures Reaches(A6_6, A6_8)
  {
    hide Reaches;
    Here(A6_6);
    GoOn(A6_6, A6_6, 1, Put(2), A6_7);
    GoOn(A6_6, A6_7, 1, Put(0), A6_8);
  }

  lemma SixFirst5()
    ensures Reaches(A6_8, A6_9)
  {
    hide Reaches;
    Here(A6_8);
    GoOn(A6_8, A6_8, 0, Put(0), A6_9);
  }

  lemma SixFirst()
    ensures Reaches(ROOT6, MID6)
  {
    SixFirst1();
    SixFirst2();
    SixFirst3();
    SixFirst4();
    SixFirst5();
    Wait(A6_9, 2);
    assert Waiting(A6_9, 2) == MID6;
    hide *;
    ReachesThen(ROOT6, A6_2, A6_4);
    ReachesThen(ROOT6, A6_4, A6_6);
    ReachesThen(ROOT6, A6_6, A6_8);
    ReachesThen(ROOT6, A6_8, A6_9);
    ReachesThen(ROOT6, A6_9, MID6);
  }

  lemma SixSecond1()
    ensures Reaches(ROOT6, B6_2)
  {
    hide Reaches;
    Here(ROOT6);
    GoOn(ROOT6, ROOT6, 1, Put(2), B6_1);
    GoOn(ROOT6, B6_1, 1, Drop(0), B6_2);
  }

  lemma SixSecond2()
    ensures Reaches(B6_2, B6_4)
  {
    hide Reaches;
    Here(B6_2);
    GoOn(B6_2, B6_2, 0, Drop(0), B6_3);
    GoOn(B6_2, B6_3, 1, Put(0), B6_4);
  }

  lemma SixSecond3()
    ensures Reaches(B6_4, B6_6)
  {
    hide Reaches;
    Here(B6_4);
    GoOn(B6_4, B6_4, 1, Put(2), B6_5);
    GoOn(B6_4, B6_5, 1, Drop(0), B6_6);
  }

  lemma SixSecond4()
    ensures Reaches(B6_6, B6_8)
  {
    hide Reaches;
    Here(B6_6);
    GoOn(B6_6, B6_6, 1, Put(1), B6_7);
    GoOn(B6_6, B6_7, 1, Put(1), B6_8);
  }

  lemma SixSecond5()
    ensures Reaches(B6_8, B6_9)
  {
    hide Reaches;
    Here(B6_8);
    GoOn(B6_8, B6_8, 3, Put(2), B6_9);
  }

  lemma SixSecond()
    ensures Reaches(ROOT6, B6_9)
  {
    SixSecond1();
    SixSecond2();
    SixSecond3();
    SixSecond4();
    SixSecond5();
    hide *;
    ReachesThen(ROOT6, B6_2, B6_4);
    ReachesThen(ROOT6, B6_4, B6_6);
    ReachesThen(ROOT6, B6_6, B6_8);
    ReachesThen(ROOT6, B6_8, B6_9);
  }

  lemma SixFirstWin()
    ensures Reaches(MID6, V6_2)
  {
    hide Reaches;
    Here(MID6);
    GoOn(MID6, MID6, 0, Put(2), V6_1);
    GoOn(MID6, V6_1, 0, Put(0), V6_2);
  }

  lemma SixSecondWin()
    ensures Reaches(B6_9, W6_2)
  {
    hide Reaches;
    Here(B6_9);
    GoOn(B6_9, B6_9, 0, Put(0), W6_1);
    GoOn(B6_9, W6_1, 0, Put(2), W6_2);
  }

  lemma SixCount(id: Id)
    ensures Among(Joined(ROOT6.hands), id) == Is(C(2), id) + Is(C(3), id) + Is(C(4), id) + Is(B(4), id)
              + Is(A(3), id) + Is(A(1), id)
              + Is(B(3), id) + Is(B(4), id) + Is(B(2), id) + Is(A(3), id) + Is(A(4), id) + Is(B(1), id)
              + Is(D(1), id) + Is(D(2), id) + Is(D(3), id) + Is(A(4), id) + Is(A(5), id) + Is(B(1), id)
    ensures Among(DRAWS6, id) == Is(C(5), id) + Is(B(2), id) + Is(D(1), id) + Is(C(1), id) + Is(A(1), id)
              + Is(C(1), id) + Is(C(2), id) + Is(A(1), id)
  {
    hide Among, Joined;
    SixHands([C(2), C(3), C(4)], [B(4), A(3), A(1)], [B(3), B(4), B(2)], [A(3), A(4), B(1)], [D(1), D(2), D(3)], [A(4), A(5), B(1)], id);
    AmongThree(C(2), C(3), C(4), id);
    AmongThree(B(4), A(3), A(1), id);
    AmongThree(B(3), B(4), B(2), id);
    AmongThree(A(3), A(4), B(1), id);
    AmongThree(D(1), D(2), D(3), id);
    AmongThree(A(4), A(5), B(1), id);
    assert DRAWS6 == [C(5), B(2), D(1), C(1)] + [A(1), C(1), C(2), A(1)];
    AmongBoth([C(5), B(2), D(1), C(1)], [A(1), C(1), C(2), A(1)], id);
    AmongFour(C(5), B(2), D(1), C(1), id);
    AmongFour(A(1), C(1), C(2), A(1), id);
  }

  lemma SixSuitA(id: Id)
    requires id.suit == 0 && 1 <= id.rank <= MAX_RANK
    ensures Among(Joined(ROOT6.hands), id) + Among(DRAWS6, id) + (if 0 >= id.rank then 1 else 0) + [0, 2, 0, 0, 0][id.rank - 1] == PLAIN[id.rank - 1]
  {
    SixCount(id);
    hide Among, Joined;
  }

  lemma SixSuitB(id: Id)
    requires id.suit == 1 && 1 <= id.rank <= MAX_RANK
    ensures Among(Joined(ROOT6.hands), id) + Among(DRAWS6, id) + (if 1 >= id.rank then 1 else 0) + [0, 0, 1, 0, 1][id.rank - 1] == PLAIN[id.rank - 1]
  {
    SixCount(id);
    hide Among, Joined;
  }

  lemma SixSuitC(id: Id)
    requires id.suit == 2 && 1 <= id.rank <= MAX_RANK
    ensures Among(Joined(ROOT6.hands), id) + Among(DRAWS6, id) + (if 1 >= id.rank then 1 else 0) + [0, 0, 1, 1, 0][id.rank - 1] == PLAIN[id.rank - 1]
  {
    SixCount(id);
    hide Among, Joined;
  }

  lemma SixSuitD(id: Id)
    requires id.suit == 3 && 1 <= id.rank <= MAX_RANK
    ensures Among(Joined(ROOT6.hands), id) + Among(DRAWS6, id) + (if 5 >= id.rank then 1 else 0) + [0, 0, 0, 1, 0][id.rank - 1] == PLAIN[id.rank - 1]
  {
    SixCount(id);
    hide Among, Joined;
  }

  lemma SixCards()
    ensures var st := TableOf(ROOT6, GONE6, DISCARDS6, COUNTS4); st.WellFormed() && AllCopies(ROOT6, ROOT6.hands, st)
  {
    var st := TableOf(ROOT6, GONE6, DISCARDS6, COUNTS4);
    hide Among, Joined, OrdersFrom;
    forall id | st.ValidId(id)
      ensures Among(Joined(ROOT6.hands), id) + Among(ROOT6.draws, id) + st.BaseCount(id) == st.CardCount(id)
    {
      assert ROOT6.draws == DRAWS6;
      if id.suit == 0 { SixSuitA(id); } else if id.suit == 1 { SixSuitB(id); } else if id.suit == 2 { SixSuitC(id); } else { SixSuitD(id); }
    }
  }

  lemma SixCaps()
    ensures var st := TableOf(ROOT6, GONE6, DISCARDS6, COUNTS4); st.WellFormed() && MaxRanksLaw(st)
  {
  }

  lemma SixGone()
    ensures Valid(GONE6, |COUNTS4|)
  {
  }

  lemma SixDraws()
    ensures Valid(DRAWS6, |COUNTS4|)
  {
  }

  lemma SixValid()
    ensures ValidCards(ROOT6, ROOT6.hands, GONE6, |COUNTS4|)
  {
    SixGone();
    SixDraws();
    assert ROOT6.draws == DRAWS6;
    forall h | h in ROOT6.hands
      ensures Valid(h, |COUNTS4|)
    {
    }
    hide Valid;
  }

  lemma SixHides()
    ensures HidesOnly(ROOT6.hands, ROOT6.hands)
  {
  }

  lemma SixReal()
    ensures RealBoard(6, ROOT6, ROOT6.hands, GONE6, DISCARDS6, COUNTS4)
  {
    SixCards();
    SixCaps();
    SixValid();
    SixHides();
    hide AllCopies, MaxRanksLaw, TableOf, ValidCards, HidesOnly;
  }

  lemma SixStuck()
    ensures Can(MID6, Hint) && StuckBoard(Do(MID6, Hint), B(4))
  {
  }

  lemma SixSame()
    ensures Can(MID6, Hint) && SameKey(Do(MID6, Hint), B6_9)
  {
    assert Joined(Do(MID6, Hint).hands) == Joined(B6_9.hands);
  }

  lemma SixOpen()
    ensures Unfinished(MID6) && Unfinished(B6_9)
  {
  }

  lemma SixPlayersCollide()
    ensures exists root, x, y :: RealTable(root, 6) && Identified(root.st) && Collide(root, x, y)
  {
    SixReal();
    SixFirst();
    SixFirstWin();
    SixSecond();
    SixSecondWin();
    SixStuck();
    SixSame();
    SixOpen();
    assert Finished(V6_2) && V6_2.maxRanks == MID6.maxRanks;
    assert Finished(W6_2) && W6_2.maxRanks == B6_9.maxRanks;
    hide Reaches, RealBoard, StuckBoard, SameKey, Unfinished, Can, RealTable, Collide, Identified;
    assert Colliding(ROOT6, MID6, V6_2, B6_9, W6_2, B(4));
    hide Colliding;
    var root, x, y := RealCollision(6, ROOT6, ROOT6.hands, GONE6, DISCARDS6, COUNTS4, MID6, V6_2, B6_9, W6_2, B(4));
  }

  // ----- Which tables the key is adequate for -----

  lemma RealTableSane(root: Pos, n: nat)
    requires RealTable(root, n)
    ensures Sane(root) && root.st.NumPlayers() == n
  {
    var w :| TableOk(w, root.st, []);
    TableSane(w, root.st, [], root.turn);
  }

  lemma SomeCollision(n: nat)
    requires 3 <= n <= 6
    ensures exists root :: RealTable(root, n) && (n > 3 ==> Identified(root.st)) && !KeysAgree(root)
  {
    hide RealTable, Collide, KeysAgree, Identified;
    if n == 3 { ThreePlayersCollide(); } else if n == 4 { FourPlayersCollide(); } else if n == 5 { FivePlayersCollide(); } else { SixPlayersCollide(); }
    var root, x, y :| RealTable(root, n) && (n > 3 ==> Identified(root.st)) && Collide(root, x, y);
    CollisionBreaks(root, x, y);
  }

  /** The memo key is adequate for all real tables of n players whose hands are all known exactly if there are at most
      three, and for all real tables, known or not, exactly if there are two. */
  lemma AdequateTables(n: nat)
    requires 2 <= n <= 6
    ensures (forall root | RealTable(root, n) && Identified(root.st) :: KeysAgree(root)) <==> n <= 3
    ensures (forall root | RealTable(root, n) :: KeysAgree(root)) <==> n <= 2
  {
    hide RealTable, KeysAgree, Identified;
    if n >= 3 { SomeCollision(n); }
    forall root | RealTable(root, n) && n <= 3 && (n == 3 ==> Identified(root.st))
      ensures KeysAgree(root)
    {
      RealTableSane(root, n);
      SmallTablesAgree(root);
    }
  }
}
