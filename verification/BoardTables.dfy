// The positions that boards are roots of: legal tables with all their cards.
module BoardTables {
  import opened Cards
  import opened GameState
  import opened Beliefs
  import opened TableLaws
  import opened EndgameGame
  import opened EndgameArrangements
  import opened EndgameRemaining
  import opened EndgameStart
  import opened MemoKey
  import opened Boards

  // ----- Legal tables are consistent positions -----

  /** What is known of the hands is true, so nobody is known to hold more than there is. */
  lemma KnownHeld(w: Deal, st: State, id: Id)
    requires st.WellFormed() && Placed(w, st)
    ensures CopiesIn(st.deck, st.hands, id) <= |Held(w, st, id)|
  {
    TruthHeld(w, st, id);
    CopiesInMono(st.deck, Truth(w), st.hands, id);
  }

  /** What is not seen is still to be drawn, or is a card in a hand that is not known. */
  lemma TableMissing(w: Deal, st: State, owed: Owed, id: Id)
    requires TableOk(w, st, owed) && st.ValidId(id)
    ensures CopiesIn(st.deck, st.hands, id) + Missing(AllUnseen(st, st.deck), id) + st.BaseCount(id) == st.CardCount(id)
  {
    KnownHeld(w, st, id);
    UnseenMissing(st, st.deck, st.NumSuits() * MAX_RANK, id);
    assert IndexOfId(id) < st.NumSuits() * MAX_RANK;
  }

  /** A legal table is a consistent position, whatever is known of the cards in hands. */
  lemma TableSane(w: Deal, st: State, owed: Owed, turn: nat)
    requires TableOk(w, st, owed) && turn < |st.hands|
    ensures Sane(Pos(st, turn, AllUnseen(st, st.deck)))
  {
    var pos := Pos(st, turn, AllUnseen(st, st.deck));
    forall id | st.ValidId(id)
      ensures CopiesIn(st.deck, st.hands, id) + Missing(pos.remaining, id) + st.BaseCount(id) == st.CardCount(id)
    {
      TableMissing(w, st, owed, id);
    }
    assert NoExtraCopies(pos);
    UnseenList(st, st.deck);
    assert st == st.(deck := pos.st.deck);
    TableListed(w, st, owed, pos);
    hide AllUnseen, NoExtraCopies, Conserved, Placed, HandOrders;
    StartShaped(w, st, owed, pos);
    StartClocked(w, st, owed, pos);
    CappedAreGone(pos, st);
  }

  lemma TableListed(w: Deal, st: State, owed: Owed, pos: Pos)
    requires TableOk(w, st, owed) && pos.st == st && forall r | r in pos.remaining :: st.ValidId(r.id)
    ensures Listed(pos)
  {
    hide Conserved, MaxRanksLaw, HandOrders;
  }

  // ----- From a board to a table -----

  function OrdersFrom(hands: seq<seq<Id>>, from: nat): (os: seq<seq<Order>>)
    ensures |os| == |hands|
  {
    if hands == [] then []
    else [seq(|hands[0]|, i requires 0 <= i < |hands[0]| => from + i)] + OrdersFrom(hands[1..], from + |hands[0]|)
  }

  lemma {:induction false} OrdersRange(hands: seq<seq<Id>>, from: nat)
    ensures forall h, o | h in OrdersFrom(hands, from) && o in h :: from <= o < from + |Joined(hands)|
    ensures DistinctHands(OrdersFrom(hands, from))
  {
    if hands != [] {
      OrdersRange(hands[1..], from + |hands[0]|);
      var all, rest := OrdersFrom(hands, from), OrdersFrom(hands[1..], from + |hands[0]|);
      assert all == [all[0]] + rest;
      assert forall o | o in all[0] :: from <= o < from + |hands[0]|;
      assert forall q | 1 <= q < |all| :: all[q] == rest[q - 1] && all[q] in rest;
      forall p, q, i, j | 0 <= p < |all| && 0 <= q < |all| && 0 <= i < |all[p]| && 0 <= j < |all[q]| && all[p][i] == all[q][j]
        ensures p == q && i == j
      {
        assert all[p][i] in all[p] && all[q][j] in all[q];
      }
    }
  }

  lemma {:induction false} OrdersShown(deck: seq<Option<Id>>, hands: seq<seq<Id>>, from: nat)
    requires from + |Joined(hands)| <= |deck| && deck[from..from + |Joined(hands)|] == Faces(Joined(hands))
    ensures forall p | 0 <= p < |hands| :: HandShown(deck, OrdersFrom(hands, from)[p], hands[p])
  {
    if hands != [] {
      var n, rest := |hands[0]|, Joined(hands[1..]);
      var part := deck[from..from + |Joined(hands)|];
      assert part == Faces(hands[0] + rest);
      assert deck[from + n..from + n + |rest|] == Faces(rest) by {
        forall i | 0 <= i < |rest|
          ensures deck[from + n + i] == Face(rest[i])
        {
          assert part[n + i] == Face((hands[0] + rest)[n + i]);
        }
      }
      OrdersShown(deck, hands[1..], from + n);
      forall i | 0 <= i < n
        ensures deck[from + i] == Face(hands[0][i])
      {
        assert part[i] == Face((hands[0] + rest)[i]);
      }
      forall p | 0 <= p < |hands|
        ensures HandShown(deck, OrdersFrom(hands, from)[p], hands[p])
      {
        if p > 0 { assert OrdersFrom(hands, from)[p] == OrdersFrom(hands[1..], from + n)[p - 1] && hands[1..][p - 1] == hands[p]; }
      }
    }
  }

  lemma {:induction false} FacesOccur(ids: seq<Id>, id: Id)
    requires id.rank > 0
    ensures multiset(Faces(ids))[Some(id)] == Among(ids, id)
  {
    if ids != [] {
      var (first, rest) := (ids[0], ids[1..]);
      FacesOccur(rest, id);
      assert ids == [first] + rest;
      assert Faces(ids) == [Face(first)] + Faces(rest);
      hide Faces;
      assert multiset(Faces(ids)) == multiset{Face(first)} + multiset(Faces(rest));
      assert multiset(ids) == multiset{first} + multiset(rest);
    } else {
      assert Faces(ids) == [];
    }
  }

  /** The state of a table that looks like the board; the cards that are gone were drawn first. */
  function TableOf(b: Board, gone: seq<Id>, discards: seq<seq<nat>>, counts: seq<seq<nat>>): State {
    State(OrdersFrom(b.hands, |gone|), Faces(gone + Joined(b.hands)), b.stacks, discards, b.maxRanks, counts,
          |b.draws|, |gone + Joined(b.hands)| - 1, b.tokens, 0, -1)
  }

  /** The true cards, where full is what the hands really are. */
  function DealOf(b: Board, full: seq<seq<Id>>, gone: seq<Id>): Deal { gone + Joined(full) + b.draws }

  function Among(ids: seq<Id>, id: Id): nat { multiset(ids)[id] }

  /** Every copy of every identity is in a hand, to be drawn, or on a stack. */
  ghost predicate AllCopies(b: Board, full: seq<seq<Id>>, st: State)
    requires st.WellFormed()
  {
    forall id | st.ValidId(id) :: Among(Joined(full), id) + Among(b.draws, id) + st.BaseCount(id) == st.CardCount(id)
  }

  ghost predicate Valid(ids: seq<Id>, numSuits: nat) {
    forall id | id in ids :: IsId(id, numSuits)
  }

  /** The board shows the true hands, but for the cards that are unknown. */
  ghost predicate HidesOnly(full: seq<seq<Id>>, hands: seq<seq<Id>>) {
    && |full| == |hands|
    && forall p | 0 <= p < |hands| :: |full[p]| == |hands[p]| && forall i | 0 <= i < |hands[p]| :: hands[p][i] == full[p][i] || hands[p][i].rank == 0
  }

  lemma {:induction false} HidesJoined(full: seq<seq<Id>>, hands: seq<seq<Id>>, from: nat)
    requires HidesOnly(full, hands)
    ensures |Joined(full)| == |Joined(hands)| && OrdersFrom(full, from) == OrdersFrom(hands, from)
    ensures forall i | 0 <= i < |Joined(hands)| :: Joined(hands)[i] == Joined(full)[i] || Joined(hands)[i].rank == 0
  {
    if hands != [] {
      assert |full[0]| == |hands[0]|;
      assert HidesOnly(full[1..], hands[1..]) by {
        forall p | 0 <= p < |hands[1..]|
          ensures full[1..][p] == full[p + 1] && hands[1..][p] == hands[p + 1]
        {
        }
      }
      HidesJoined(full[1..], hands[1..], from + |hands[0]|);
      hide HidesOnly;
    }
  }

  lemma TableHeld(b: Board, gone: seq<Id>, discards: seq<seq<nat>>, counts: seq<seq<nat>>, id: Id)
    requires id.rank > 0
    ensures var st := TableOf(b, gone, discards, counts);
            && DistinctHands(st.hands)
            && (forall p | 0 <= p < |b.hands| :: HandShown(st.deck, st.hands[p], b.hands[p]))
            && CopiesIn(st.deck, st.hands, id) == Among(Joined(b.hands), id)
  {
    var st := TableOf(b, gone, discards, counts);
    var j := Joined(b.hands);
    assert st.deck[|gone|..|gone| + |j|] == Faces(j);
    OrdersRange(b.hands, |gone|);
    OrdersShown(st.deck, b.hands, |gone|);
    FlatShown(st.deck, st.hands, b.hands);
    CopiesInAreOccurrences(st.deck, st.hands, id);
    FacesOccur(j, id);
  }

  lemma TableIdentified(b: Board, gone: seq<Id>, discards: seq<seq<nat>>, counts: seq<seq<nat>>)
    requires forall h, id | h in b.hands && id in h :: id.rank > 0
    ensures Identified(TableOf(b, gone, discards, counts))
  {
    var st := TableOf(b, gone, discards, counts);
    TableHeld(b, gone, discards, counts, Id(0, 1));
    forall h, o | h in st.hands && o in h
      ensures o < |st.deck| && st.deck[o].Some?
    {
      var p :| 0 <= p < |st.hands| && st.hands[p] == h;
      assert HandShown(st.deck, st.hands[p], b.hands[p]);
      var i :| 0 <= i < |h| && h[i] == o;
      assert b.hands[p] in b.hands && b.hands[p][i] in b.hands[p];
    }
  }

  /** The true cards in hands. */
  lemma TrueHands(b: Board, full: seq<seq<Id>>, gone: seq<Id>, discards: seq<seq<nat>>, counts: seq<seq<nat>>, id: Id)
    requires HidesOnly(full, b.hands) && Valid(DealOf(b, full, gone), |counts|) && id.rank > 0
    ensures |Held(DealOf(b, full, gone), TableOf(b, gone, discards, counts), id)| == Among(Joined(full), id)
  {
    var w, st := DealOf(b, full, gone), TableOf(b, gone, discards, counts);
    var known := TableOf(b.(hands := full), gone, discards, counts);
    HidesJoined(full, b.hands, |gone|);
    TableHeld(b, gone, discards, counts, id);
    TableHeld(b.(hands := full), gone, discards, counts, id);
    TruthHeld(w, st, id);
    OrdersRange(b.hands, |gone|);
    forall h | h in st.hands
      ensures SameOn(known.deck, Truth(w), h)
    {
      forall o | o in h
        ensures o < |known.deck| && o < |w| && known.deck[o] == Truth(w)[o]
      {
        assert w[o] == (gone + Joined(full))[o] && w[o] in w;
      }
    }
    CopiesInSame(known.deck, Truth(w), st.hands, id);
  }

  lemma TableUndrawn(b: Board, full: seq<seq<Id>>, gone: seq<Id>, discards: seq<seq<nat>>, counts: seq<seq<nat>>, id: Id)
    requires |Joined(full)| == |Joined(b.hands)| && id.rank > 0 && forall i | i in b.draws :: i.rank > 0
    ensures |Undrawn(DealOf(b, full, gone), TableOf(b, gone, discards, counts), id)| == Among(b.draws, id)
  {
    var w, st := DealOf(b, full, gone), TableOf(b, gone, discards, counts);
    TruthUndrawn(w, st, id);
    CopiesAreOccurrences(Truth(w), Pile(w, st), id);
    assert CardIds(Truth(w), Pile(w, st)) == Faces(b.draws);
    FacesOccur(b.draws, id);
  }

  lemma TablePlaced(b: Board, full: seq<seq<Id>>, gone: seq<Id>, discards: seq<seq<nat>>, counts: seq<seq<nat>>)
    requires HidesOnly(full, b.hands) && Valid(DealOf(b, full, gone), |counts|)
    ensures Placed(DealOf(b, full, gone), TableOf(b, gone, discards, counts))
  {
    var w, st := DealOf(b, full, gone), TableOf(b, gone, discards, counts);
    HidesJoined(full, b.hands, |gone|);
    OrdersRange(b.hands, |gone|);
    forall o | o in HandOrders(st)
      ensures o < |st.deck|
    {
      HandOrdersMember(st, o);
      var p :| 0 <= p < |st.hands| && o in st.hands[p];
      assert st.hands[p] in st.hands;
    }
    forall o | 0 <= o < |w|
      ensures st.ValidId(w[o])
    {
      assert w[o] in w;
    }
    hide HandOrders, DistinctHands;
  }

  lemma TableConserved(b: Board, full: seq<seq<Id>>, gone: seq<Id>, discards: seq<seq<nat>>, counts: seq<seq<nat>>)
    requires HidesOnly(full, b.hands) && Valid(DealOf(b, full, gone), |counts|) && TableOf(b, gone, discards, counts).WellFormed()
    requires AllCopies(b, full, TableOf(b, gone, discards, counts))
    ensures Conserved(DealOf(b, full, gone), TableOf(b, gone, discards, counts))
  {
    var w, st := DealOf(b, full, gone), TableOf(b, gone, discards, counts);
    HidesJoined(full, b.hands, |gone|);
    assert forall i | i in b.draws :: i in w && i.rank > 0;
    forall id | st.ValidId(id)
      ensures |Held(w, st, id)| + |Undrawn(w, st, id)| + st.BaseCount(id) == st.CardCount(id)
    {
      TrueHands(b, full, gone, discards, counts, id);
      TableUndrawn(b, full, gone, discards, counts, id);
      hide TableOf, DealOf, Held, Undrawn, Joined, HidesOnly, Valid, OrdersFrom;
    }
  }

  /** A root: nothing has been drawn, and the last round has not begun. */
  predicate AtRoot(b: Board) {
    b.drawn == [] && !b.noted && b.turns == -1 && b.draws != [] && b.turn < |b.hands| && 0 <= b.tokens <= 8
  }

  /** A board with all its cards, whose hands really are full. */
  ghost predicate Whole(b: Board, full: seq<seq<Id>>, gone: seq<Id>, discards: seq<seq<nat>>, counts: seq<seq<nat>>) {
    && AtRoot(b) && HidesOnly(full, b.hands) && Valid(DealOf(b, full, gone), |counts|)
    && var st := TableOf(b, gone, discards, counts); st.WellFormed() && AllCopies(b, full, st) && MaxRanksLaw(st)
  }

  /** The table of a board with all its cards is legal. */
  lemma TableLegal(b: Board, full: seq<seq<Id>>, gone: seq<Id>, discards: seq<seq<nat>>, counts: seq<seq<nat>>)
    requires Whole(b, full, gone, discards, counts)
    ensures TableOk(DealOf(b, full, gone), TableOf(b, gone, discards, counts), [])
  {
    TablePlaced(b, full, gone, discards, counts);
    TableConserved(b, full, gone, discards, counts);
    hide Placed, Conserved, MaxRanksLaw, AllCopies, Joined, OrdersFrom, HidesOnly, Valid;
  }

  function RootOf(b: Board, gone: seq<Id>, discards: seq<seq<nat>>, counts: seq<seq<nat>>): Pos
    requires TableOf(b, gone, discards, counts).WellFormed()
  {
    var st := TableOf(b, gone, discards, counts);
    Pos(st, b.turn, AllUnseen(st, st.deck))
  }

  lemma RootMissing(b: Board, full: seq<seq<Id>>, gone: seq<Id>, discards: seq<seq<nat>>, counts: seq<seq<nat>>, id: Id)
    requires Whole(b, full, gone, discards, counts)
    ensures Missing(RootOf(b, gone, discards, counts).remaining, id) >= Among(b.draws, id)
  {
    var w, st := DealOf(b, full, gone), TableOf(b, gone, discards, counts);
    if st.ValidId(id) {
      TableLegal(b, full, gone, discards, counts);
      TableMissing(w, st, [], id);
      KnownHeld(w, st, id);
      TrueHands(b, full, gone, discards, counts, id);
    } else {
      assert id !in b.draws by { assert forall i | i in b.draws :: i in w; }
    }
  }

  /** The root looks like the board. */
  lemma RootShown(b: Board, full: seq<seq<Id>>, gone: seq<Id>, discards: seq<seq<nat>>, counts: seq<seq<nat>>)
    requires Whole(b, full, gone, discards, counts)
    ensures var root := RootOf(b, gone, discards, counts); Shows(root, root, b)
  {
    var root := RootOf(b, gone, discards, counts);
    TableLegal(b, full, gone, discards, counts);
    TableHeld(b, gone, discards, counts, Id(0, 1));
    TableSane(DealOf(b, full, gone), root.st, [], b.turn);
    hide TableOk, Sane, AllUnseen, HandShown, Missing, CopiesIn, DistinctHands, Joined;
    forall id
      ensures Missing(root.remaining, id) >= Among(b.draws, id)
    {
      RootMissing(b, full, gone, discards, counts, id);
    }
    hide OrdersFrom, Faces, Whole;
    ShowsItself(root, b);
  }

  lemma ShowsItself(root: Pos, b: Board)
    requires Sane(root) && AtRoot(b) && |root.st.hands| == |b.hands|
    requires forall p | 0 <= p < |b.hands| :: HandShown(root.st.deck, root.st.hands[p], b.hands[p])
    requires root.st.playStacks == b.stacks && root.st.maxRanks == b.maxRanks && root.st.clueTokens == b.tokens
    requires root.st.endgameTurns == -1 && root.turn == b.turn && root.st.cardsLeft == |b.draws| && root.st.cardOrder + 1 == |root.st.deck|
    requires forall id :: Missing(root.remaining, id) >= Among(b.draws, id)
    ensures Shows(root, root, b)
  {
    hide Sane, HandShown, Missing;
    assert root.st.deck == root.st.deck + Named([]) + [];
  }

  // ----- Counting the cards of a board -----

  function Is(x: Id, id: Id): nat {
    if x == id then 1 else 0
  }

  lemma AmongBoth(a: seq<Id>, b: seq<Id>, id: Id)
    ensures Among(a + b, id) == Among(a, id) + Among(b, id)
  {
  }

  lemma AmongTwo(a: Id, b: Id, id: Id)
    ensures Among([a, b], id) == Is(a, id) + Is(b, id)
  {
  }

  lemma AmongThree(a: Id, b: Id, c: Id, id: Id)
    ensures Among([a, b, c], id) == Is(a, id) + Is(b, id) + Is(c, id)
  {
  }

  lemma AmongFour(a: Id, b: Id, c: Id, d: Id, id: Id)
    ensures Among([a, b, c, d], id) == Is(a, id) + Is(b, id) + Is(c, id) + Is(d, id)
  {
  }

  lemma AmongFive(a: Id, b: Id, c: Id, d: Id, e: Id, id: Id)
    ensures Among([a, b, c, d, e], id) == Is(a, id) + Is(b, id) + Is(c, id) + Is(d, id) + Is(e, id)
  {
  }

  lemma FirstHand(a: seq<Id>, rest: seq<seq<Id>>, id: Id)
    ensures Among(Joined([a] + rest), id) == Among(a, id) + Among(Joined(rest), id)
  {
    assert ([a] + rest)[1..] == rest;
  }

  lemma ThreeHands(a: seq<Id>, b: seq<Id>, c: seq<Id>, id: Id)
    ensures Among(Joined([a, b, c]), id) == Among(a, id) + Among(b, id) + Among(c, id)
  {
    assert Joined([]) == [];
    hide Joined;
    FirstHand(c, [], id);
    FirstHand(b, [c], id);
    FirstHand(a, [b, c], id);
    assert [c] + [] == [c] && [b] + [c] == [b, c] && [a] + [b, c] == [a, b, c];
  }

  lemma FourHands(a: seq<Id>, b: seq<Id>, c: seq<Id>, d: seq<Id>, id: Id)
    ensures Among(Joined([a, b, c, d]), id) == Among(a, id) + Among(b, id) + Among(c, id) + Among(d, id)
  {
    hide Joined;
    ThreeHands(b, c, d, id);
    FirstHand(a, [b, c, d], id);
    assert [a] + [b, c, d] == [a, b, c, d];
  }

  lemma FiveHands(a: seq<Id>, b: seq<Id>, c: seq<Id>, d: seq<Id>, e: seq<Id>, id: Id)
    ensures Among(Joined([a, b, c, d, e]), id) == Among(a, id) + Among(b, id) + Among(c, id) + Among(d, id) + Among(e, id)
  {
    hide Joined;
    FourHands(b, c, d, e, id);
    FirstHand(a, [b, c, d, e], id);
    assert [a] + [b, c, d, e] == [a, b, c, d, e];
  }

  lemma SixHands(a: seq<Id>, b: seq<Id>, c: seq<Id>, d: seq<Id>, e: seq<Id>, f: seq<Id>, id: Id)
    ensures Among(Joined([a, b, c, d, e, f]), id) ==
              Among(a, id) + Among(b, id) + Among(c, id) + Among(d, id) + Among(e, id) + Among(f, id)
  {
    hide Joined;
    FiveHands(b, c, d, e, f, id);
    FirstHand(a, [b, c, d, e, f], id);
    assert [a] + [b, c, d, e, f] == [a, b, c, d, e, f];
  }
}
