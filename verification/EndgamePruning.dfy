// `unwinnable_state` and `find_must_plays` of src/conventions/shared/endgame-helper.js,
// and the proof that each pruning rule only fires when no run can reach the maximum score.
module EndgamePruning {
  import opened Cards
  import opened GameState
  import opened Table
  import opened EndgameSteps
  import opened EndgameGame

  // ----- The rules -----

  /** Every card of the player is unidentified or trash. */
  predicate Void(st: State, p: nat)
    requires st.WellFormed() && p < |st.hands|
  {
    forall o | o in st.hands[p] :: Discardable(st, o)
  }

  function Seat(t: nat, i: nat, n: nat): (p: nat)
    requires n > 0
    ensures p < n
  {
    (t + i) % n
  }

  /** How many of the next k players are not void. */
  function Ahead(st: State, t: nat, k: nat): nat
    requires st.WellFormed()
  {
    if k == 0 then 0
    else Ahead(st, t, k - 1) + if Void(st, Seat(t, k - 1, st.NumPlayers())) then 0 else 1
  }

  function VoidPlayers(st: State): int
    requires st.WellFormed()
  {
    st.NumPlayers() - Ahead(st, 0, st.NumPlayers())
  }

  /** All remaining copies of a useful identity are in this hand. */
  predicate MustPlay(st: State, hand: seq<Order>, id: Id)
    requires st.WellFormed()
  {
    && st.ValidId(id) && !st.BasicTrash(id)
    && Copies(st.deck, hand, id) > 0
    && st.CardCount(id) - st.BaseCount(id) == Copies(st.deck, hand, id)
  }

  /** `find_must_plays`: the groups of the hand from position k on whose identity must be played. */
  function FindMustPlays(st: State, hand: seq<Order>, k: nat): (ids: seq<Id>)
    requires st.WellFormed() && k <= |hand|
    ensures forall id | id in ids :: MustPlay(st, hand, id)
    ensures forall id | id in ids :: exists j :: k <= j < |hand| && hand[j] < |st.deck| && st.deck[hand[j]] == Some(id)
    ensures forall i, j | 0 <= i < j < |ids| :: ids[i] != ids[j]
    ensures forall j | k <= j < |hand| && hand[j] < |st.deck| && st.deck[hand[j]].Some? && MustPlay(st, hand, st.deck[hand[j]].value) ::
              st.deck[hand[j]].value in ids
    decreases |hand| - k
  {
    if k == |hand| then []
    else
      var rest := FindMustPlays(st, hand, k + 1);
      var id := if hand[k] < |st.deck| then st.deck[hand[k]] else None;
      // Later copies stand for their group
      if id.Some? && id.value !in rest && MustPlay(st, hand, id.value) then [id.value] + rest else rest
  }

  function MustPlays(st: State, p: nat): seq<Id>
    requires st.WellFormed() && p < |st.hands|
  {
    FindMustPlays(st, st.hands[p], 0)
  }

  lemma {:induction false} CopiesSomewhere(deck: seq<Option<Id>>, hand: seq<Order>, id: Id) returns (j: nat)
    requires Copies(deck, hand, id) > 0
    ensures j < |hand| && hand[j] < |deck| && deck[hand[j]] == Some(id)
  {
    if hand[0] < |deck| && deck[hand[0]] == Some(id) {
      j := 0;
    } else {
      var rest := CopiesSomewhere(deck, hand[1..], id);
      j := rest + 1;
    }
  }

  /** Listed are exactly the identities that are needed and wholly in the hand. */
  lemma MustPlaysExact(st: State, p: nat, id: Id)
    requires st.WellFormed() && p < |st.hands|
    ensures id in MustPlays(st, p) <==> MustPlay(st, st.hands[p], id)
  {
    if MustPlay(st, st.hands[p], id) {
      var j := CopiesSomewhere(st.deck, st.hands[p], id);
    }
  }

  predicate DoubleMust(st: State, p: nat)
    requires st.WellFormed() && p < |st.hands|
  {
    |MustPlays(st, p)| > 1
  }

  /** `unwinnable_state`. */
  predicate Unwinnable(st: State, turn: nat)
    requires st.WellFormed()
  {
    if st.Ended() || st.Pace() < 0 then true
    else if VoidPlayers(st) > st.Pace() then true
    else if st.endgameTurns > 0 && Ahead(st, turn, st.endgameTurns) + st.Score() < st.MaxScore() then true
    else if st.endgameTurns > 0 && exists i | 0 <= i < st.endgameTurns :: DoubleMust(st, Seat(turn, i, st.NumPlayers())) then true
    else st.cardsLeft == 1 && |set p | 0 <= p < |st.hands| && DoubleMust(st, p)| > 1
  }

  // ----- Seats -----

  lemma MulAtLeast(a: int, b: int, n: nat)
    ensures a >= b ==> a * n >= b * n
  {
  }

  lemma ModStep(y: nat, n: nat)
    requires n > 0
    ensures (y + n) % n == y % n
  {
    var (q, r) := (y / n, y % n);
    assert y + n == (q + 1) * n + r;
    ModUnique(y + n, q + 1, r, n);
  }

  lemma ModUnique(x: nat, q: nat, r: nat, n: nat)
    requires r < n && x == q * n + r
    ensures x % n == r
  {
    var p := x / n;
    assert x == p * n + x % n;
    MulAtLeast(p, q + 1, n);
    MulAtLeast(q, p + 1, n);
  }

  lemma ModOnce(x: nat, n: nat)
    requires 0 < n <= x < 2 * n
    ensures x % n == x - n
  {
    assert (x - n) % n == x - n by { ModSmall(x - n, n); }
    ModStep(x - n, n);
  }

  lemma ModSmall(x: nat, n: nat)
    requires x < n
    ensures x % n == x
  {
  }

  lemma SeatValue(t: nat, i: nat, n: nat)
    requires t < n && i <= n
    ensures Seat(t, i, n) == if t + i < n then t + i else t + i - n
  {
    var x := t + i;
    if x >= n {
      ModOnce(x, n);
    } else {
      ModSmall(x, n);
    }
  }

  lemma SeatNext(t: nat, i: nat, n: nat)
    requires t < n && i < n
    ensures Seat(t, 1, n) < n && Seat(Seat(t, 1, n), i, n) == Seat(t, i + 1, n)
    ensures Seat(t, 0, n) == t
  {
    SeatValue(t, 1, n);
    SeatValue(Seat(t, 1, n), i, n);
    SeatValue(t, i + 1, n);
  }

  lemma SeatDistinct(t: nat, i: nat, n: nat)
    requires t < n && 0 < i < n
    ensures Seat(t, i, n) != t
  {
    SeatValue(t, i, n);
  }

  lemma SeatOf(t: nat, p: nat, n: nat)
    requires t < n && p < n
    ensures exists i :: 0 <= i < n && Seat(t, i, n) == p
  {
    var i: nat := if p >= t then p - t else p + n - t;
    SeatValue(t, i, n);
    assert Seat(t, i, n) == p;
  }

  lemma {:induction false} AheadHead(st: State, t: nat, k: nat)
    requires st.WellFormed() && t < st.NumPlayers() && k < st.NumPlayers()
    ensures Ahead(st, t, k + 1) == (if Void(st, t) then 0 else 1) + Ahead(st, st.NextPlayer(t), k)
  {
    SeatNext(t, 0, st.NumPlayers());
    if k > 0 {
      AheadHead(st, t, k - 1);
      SeatNext(t, k - 1, st.NumPlayers());
    }
  }

  lemma AheadRotate(st: State, t: nat)
    requires st.WellFormed() && t < st.NumPlayers()
    ensures Ahead(st, st.NextPlayer(t), st.NumPlayers()) == Ahead(st, t, st.NumPlayers())
  {
    var n := st.NumPlayers();
    AheadHead(st, t, n - 1);
    SeatNext(t, n - 1, n);
    SeatValue(t, n, n);
  }

  lemma {:induction false} AheadAll(st: State, t: nat)
    requires st.WellFormed() && t < st.NumPlayers()
    ensures Ahead(st, t, st.NumPlayers()) == st.NumPlayers() - VoidPlayers(st)
  {
    if t > 0 {
      AheadAll(st, t - 1);
      AheadRotate(st, t - 1);
      SeatValue(t - 1, 1, st.NumPlayers());
    }
  }

  lemma {:induction false} AheadMonotone(st: State, t: nat, j: nat, k: nat)
    requires st.WellFormed() && j <= k
    ensures Ahead(st, t, j) <= Ahead(st, t, k)
  {
    if j < k {
      AheadMonotone(st, t, j, k - 1);
    }
  }

  lemma {:induction false} AheadFewer(s0: State, s1: State, t: nat, k: nat)
    requires s0.WellFormed() && s1.WellFormed() && s0.NumPlayers() == s1.NumPlayers()
    requires forall i | 0 <= i < k && Void(s0, Seat(t, i, s0.NumPlayers())) :: Void(s1, Seat(t, i, s1.NumPlayers()))
    ensures Ahead(s1, t, k) <= Ahead(s0, t, k)
  {
    if k > 0 {
      AheadFewer(s0, s1, t, k - 1);
    }
  }

  // ----- The score that is still within reach -----

  /** Cards still to be used before the last round, plus the players who can use one in it. */
  function Potential(pos: Pos): nat
    requires pos.st.WellFormed()
  {
    if pos.st.endgameTurns < 0 then pos.st.cardsLeft + Ahead(pos.st, pos.turn, pos.st.NumPlayers())
    else Ahead(pos.st, pos.turn, pos.st.endgameTurns)
  }

  /** Other players' hands are untouched and trash stays trash. */
  lemma VoidStays(pos: Pos, s: Step, any: bool, p: nat)
    requires StepLegal(pos, s, any) && Clock(pos.st) && p < |pos.st.hands| && (p != pos.turn || s.move.AnyClue?)
    requires Void(pos.st, p)
    ensures var next := After(pos, s, any).st; next.WellFormed() && |next.hands| == |pos.st.hands| && Void(next, p)
  {
    assert pos.st.hands[p] in pos.st.hands;
    assert After(pos, s, any).st.hands[p] == pos.st.hands[p];
    forall o | o in pos.st.hands[p]
      ensures Discardable(After(pos, s, any).st, o)
    {
      assert Discardable(pos.st, o);
    }
  }

  lemma PlayerNotVoid(pos: Pos, s: Step, any: bool)
    requires StepLegal(pos, s, any) && Sane(pos) && s.move.PlayCard?
    ensures !Void(pos.st, pos.turn)
  {
    var id := pos.st.deck[s.move.order].value;
    StacksAfter(pos, s, any);
    assert !Discardable(pos.st, s.move.order);
  }

  /** The players behind the one to move lose no void player. */
  lemma OthersAhead(pos: Pos, s: Step, any: bool, k: nat)
    requires StepLegal(pos, s, any) && Clock(pos.st) && k < pos.st.NumPlayers()
    ensures var next := After(pos, s, any);
            next.st.WellFormed() && next.st.NumPlayers() == pos.st.NumPlayers()
            && Ahead(next.st, next.turn, k) <= Ahead(pos.st, next.turn, k)
  {
    var next := After(pos, s, any);
    var n := pos.st.NumPlayers();
    forall i | 0 <= i < k && Void(pos.st, Seat(next.turn, i, n))
      ensures Void(next.st, Seat(next.turn, i, n))
    {
      SeatNext(pos.turn, i, n);
      SeatDistinct(pos.turn, i + 1, n);
      VoidStays(pos, s, any, Seat(next.turn, i, n));
    }
    AheadFewer(pos.st, next.st, next.turn, k);
  }

  lemma ScoreAfter(pos: Pos, s: Step, any: bool)
    requires StepLegal(pos, s, any)
    ensures After(pos, s, any).st.WellFormed()
    ensures After(pos, s, any).st.Score() == pos.st.Score() + if s.move.PlayCard? then 1 else 0
    ensures After(pos, s, any).st.MaxScore() == pos.st.MaxScore()
  {
    if s.move.PlayCard? {
      var id := pos.st.deck[s.move.order].value;
      SumUpdate(pos.st.playStacks, id.suit, id.rank);
    }
  }

  /** Before the last round: the mover's seat comes last for the next player. */
  lemma AheadAfterEarly(pos: Pos, s: Step, any: bool)
    requires StepLegal(pos, s, any) && Sane(pos) && pos.st.endgameTurns == -1
    ensures var next := After(pos, s, any);
            var n := pos.st.NumPlayers();
            next.st.WellFormed() && next.st.NumPlayers() == n
            && Ahead(next.st, next.turn, n) <= Ahead(pos.st, pos.turn, n) + if s.move.DiscardCard? then 1 else 0
  {
    var next := After(pos, s, any);
    var n := pos.st.NumPlayers();
    OthersAhead(pos, s, any, n - 1);
    AheadHead(pos.st, pos.turn, n - 1);
    SeatNext(pos.turn, n - 1, n);
    SeatValue(pos.turn, n, n);
    assert Seat(next.turn, n - 1, n) == pos.turn;
    if s.move.PlayCard? {
      PlayerNotVoid(pos, s, any);
    } else if s.move.AnyClue? && Void(pos.st, pos.turn) {
      VoidStays(pos, s, any, pos.turn);
    }
  }

  lemma AheadAfterLate(pos: Pos, s: Step, any: bool)
    requires StepLegal(pos, s, any) && Sane(pos) && pos.st.endgameTurns > 0
    ensures var next := After(pos, s, any);
            next.st.WellFormed() && next.st.NumPlayers() == pos.st.NumPlayers()
            && Ahead(next.st, next.turn, pos.st.endgameTurns - 1)
                 <= Ahead(pos.st, pos.turn, pos.st.endgameTurns) - if s.move.PlayCard? then 1 else 0
  {
    OthersAhead(pos, s, any, pos.st.endgameTurns - 1);
    AheadHead(pos.st, pos.turn, pos.st.endgameTurns - 1);
    if s.move.PlayCard? {
      PlayerNotVoid(pos, s, any);
    }
  }

  /** No step brings the maximum reachable score up. */
  lemma PotentialStep(pos: Pos, s: Step, any: bool)
    requires StepLegal(pos, s, any) && Sane(pos)
    ensures var next := After(pos, s, any);
            next.st.WellFormed() && next.st.Score() + Potential(next) <= pos.st.Score() + Potential(pos)
  {
    ScoreAfter(pos, s, any);
    if pos.st.endgameTurns == -1 {
      AheadAfterEarly(pos, s, any);
    } else {
      AheadAfterLate(pos, s, any);
    }
    hide Ahead;
  }

  lemma {:induction false} PotentialBounds(pos: Pos, path: seq<Step>, any: bool)
    requires Sane(pos) && Wins(pos, path, any)
    ensures pos.st.MaxScore() <= pos.st.Score() + Potential(pos)
    decreases |path|
  {
    if path != [] {
      SaneAfter(pos, path[0], any);
      ScoreAfter(pos, path[0], any);
      PotentialStep(pos, path[0], any);
      PotentialBounds(After(pos, path[0], any), path[1..], any);
    }
  }

  /** Pace, void players and the last-round bound: too few useful turns are left. */
  lemma TooFewTurns(pos: Pos, any: bool)
    requires Sane(pos) && pos.st.Score() + Potential(pos) < pos.st.MaxScore()
    ensures !CanWin(pos, any)
  {
    forall path: seq<Step>
      ensures !Wins(pos, path, any)
    {
      if Wins(pos, path, any) {
        PotentialBounds(pos, path, any);
      }
    }
  }

  // ----- Cards that only one player can play -----

  /** Still needed for the maximum score. */
  predicate Useful(st: State, id: Id)
    requires st.WellFormed()
  {
    st.ValidId(id) && !st.BasicTrash(id)
  }

  /** Every copy that is left is in player q's hand. */
  ghost predicate OnlyIn(pos: Pos, q: nat, id: Id)
    requires pos.st.WellFormed()
  {
    && Useful(pos.st, id) && Missing(pos.remaining, id) == 0
    && forall p | 0 <= p < |pos.st.hands| && p != q :: Copies(pos.st.deck, pos.st.hands[p], id) == 0
  }

  ghost predicate HoldsTwo(pos: Pos, q: nat, a: Id, b: Id)
    requires pos.st.WellFormed()
  {
    q < |pos.st.hands| && a != b && OnlyIn(pos, q, a) && OnlyIn(pos, q, b)
  }

  lemma MustPlaysTwo(pos: Pos, q: nat)
    requires Sane(pos) && q < |pos.st.hands| && DoubleMust(pos.st, q)
    ensures HoldsTwo(pos, q, MustPlays(pos.st, q)[0], MustPlays(pos.st, q)[1])
  {
    var ids := MustPlays(pos.st, q);
    assert ids[0] in ids && ids[1] in ids;
    MustPlayOnly(pos, q, ids[0]);
    MustPlayOnly(pos, q, ids[1]);
  }

  lemma MustPlayOnly(pos: Pos, q: nat, id: Id)
    requires Sane(pos) && q < |pos.st.hands| && MustPlay(pos.st, pos.st.hands[q], id)
    ensures OnlyIn(pos, q, id)
  {
    CopiesInAtLeast(pos.st.deck, pos.st.hands, q, id);
  }

  /** A useful card that is not the one just played stays useful. */
  lemma UsefulStays(pos: Pos, s: Step, any: bool, id: Id)
    requires StepLegal(pos, s, any) && Useful(pos.st, id)
    requires s.move.PlayCard? ==> pos.st.deck[s.move.order] != Some(id)
    ensures After(pos, s, any).st.WellFormed() && Useful(After(pos, s, any).st, id)
  {
  }

  /** Hands of players who do not move keep their copies. */
  lemma CopiesElsewhere(pos: Pos, s: Step, any: bool, p: nat, id: Id)
    requires StepLegal(pos, s, any) && Clock(pos.st) && p < |pos.st.hands| && p != pos.turn
    ensures var next := After(pos, s, any).st;
            |next.hands| == |pos.st.hands| && Copies(next.deck, next.hands[p], id) == Copies(pos.st.deck, pos.st.hands[p], id)
  {
    var next := After(pos, s, any).st;
    assert pos.st.hands[p] in pos.st.hands;
    assert next.hands[p] == pos.st.hands[p];
    assert next.deck == pos.st.deck || next.deck == pos.st.deck + [s.draw];
    CopiesExtend(pos.st.deck, [s.draw], pos.st.hands[p], id);
  }

  /** A mover without copies ends up without copies, unless one is drawn. */
  lemma CopiesOfMover(pos: Pos, s: Step, any: bool, id: Id)
    requires StepLegal(pos, s, any) && Clock(pos.st)
    requires Copies(pos.st.deck, Hand(pos), id) == 0 && s.draw != Some(id)
    ensures var next := After(pos, s, any).st;
            pos.turn < |next.hands| && Copies(next.deck, next.hands[pos.turn], id) == 0
    ensures !s.move.AnyClue? ==> pos.st.deck[s.move.order] != Some(id)
  {
    var next := After(pos, s, any).st;
    CopiesZero(pos.st.deck, Hand(pos), id);
    CopiesZero(next.deck, next.hands[pos.turn], id);
    assert Hand(pos) in pos.st.hands;
    if !s.move.AnyClue? {
      RemovedSubset(Hand(pos), s.move.order);
    }
  }

  /** Another player's move leaves q's useful cards alone. */
  lemma OnlyInStays(pos: Pos, s: Step, any: bool, q: nat, id: Id)
    requires StepLegal(pos, s, any) && Sane(pos) && q < |pos.st.hands| && q != pos.turn && OnlyIn(pos, q, id)
    ensures After(pos, s, any).st.WellFormed() && OnlyIn(After(pos, s, any), q, id)
  {
    var next := After(pos, s, any);
    NotDrawn(pos, s, any, id);
    CopiesOfMover(pos, s, any, id);
    UsefulStays(pos, s, any, id);
    CopiesAfter(pos, s, any, id);
    forall p | 0 <= p < |next.st.hands| && p != q
      ensures Copies(next.st.deck, next.st.hands[p], id) == 0
    {
      if p != pos.turn {
        CopiesElsewhere(pos, s, any, p, id);
      }
    }
  }

  lemma NotDrawn(pos: Pos, s: Step, any: bool, id: Id)
    requires StepLegal(pos, s, any) && Missing(pos.remaining, id) == 0
    ensures s.draw != Some(id)
  {
    MissingPositive(pos.remaining, id);
  }

  /** In the last round, no player with a turn left holds a card that is still needed. */
  ghost predicate Lost(pos: Pos, id: Id)
    requires pos.st.WellFormed()
  {
    && pos.st.endgameTurns >= 0 && Useful(pos.st, id)
    && forall i | 0 <= i < pos.st.endgameTurns ::
         Copies(pos.st.deck, pos.st.hands[Seat(pos.turn, i, pos.st.NumPlayers())], id) == 0
  }

  lemma LostStep(pos: Pos, s: Step, any: bool, id: Id)
    requires StepLegal(pos, s, any) && Sane(pos) && Lost(pos, id)
    ensures After(pos, s, any).st.WellFormed() && Lost(After(pos, s, any), id)
  {
    var next := After(pos, s, any);
    var n := pos.st.NumPlayers();
    SeatNext(pos.turn, 0, n);
    CopiesOfMover(pos, s, any, id);
    UsefulStays(pos, s, any, id);
    forall i | 0 <= i < next.st.endgameTurns
      ensures Copies(next.st.deck, next.st.hands[Seat(next.turn, i, n)], id) == 0
    {
      SeatNext(pos.turn, i, n);
      SeatDistinct(pos.turn, i + 1, n);
      CopiesElsewhere(pos, s, any, Seat(pos.turn, i + 1, n), id);
    }
  }

  lemma UsefulNotWon(pos: Pos, id: Id)
    requires pos.st.WellFormed() && StacksCapped(pos.st) && Useful(pos.st, id)
    ensures !Won(pos.st)
  {
    SumMono(pos.st.playStacks, pos.st.maxRanks);
  }

  lemma {:induction false} LostNeverWins(pos: Pos, path: seq<Step>, any: bool, id: Id)
    requires Sane(pos) && Lost(pos, id)
    ensures !Wins(pos, path, any)
    decreases |path|
  {
    UsefulNotWon(pos, id);
    if path != [] && StepLegal(pos, path[0], any) {
      SaneAfter(pos, path[0], any);
      LostStep(pos, path[0], any, id);
      LostNeverWins(After(pos, path[0], any), path[1..], any, id);
    }
  }

  /** The holder's one turn of the last round leaves one of the two cards behind. */
  lemma HolderMoves(pos: Pos, s: Step, any: bool, a: Id, b: Id)
    requires StepLegal(pos, s, any) && Sane(pos) && pos.st.endgameTurns > 0 && HoldsTwo(pos, pos.turn, a, b)
    ensures After(pos, s, any).st.WellFormed() && (Lost(After(pos, s, any), a) || Lost(After(pos, s, any), b))
  {
    var left := if s.move.PlayCard? && pos.st.deck[s.move.order] == Some(a) then b else a;
    var next := After(pos, s, any);
    var n := pos.st.NumPlayers();
    UsefulStays(pos, s, any, left);
    forall i | 0 <= i < next.st.endgameTurns
      ensures Copies(next.st.deck, next.st.hands[Seat(next.turn, i, n)], left) == 0
    {
      SeatNext(pos.turn, i, n);
      SeatDistinct(pos.turn, i + 1, n);
      CopiesElsewhere(pos, s, any, Seat(pos.turn, i + 1, n), left);
    }
  }

  /** A player who must play two cards has only one turn in the last round. */
  lemma {:induction false} TwoInOneTurn(pos: Pos, path: seq<Step>, any: bool, i: nat, a: Id, b: Id)
    requires Sane(pos) && i < pos.st.endgameTurns
    requires HoldsTwo(pos, Seat(pos.turn, i, pos.st.NumPlayers()), a, b)
    ensures !Wins(pos, path, any)
    decreases |path|
  {
    UsefulNotWon(pos, a);
    if path != [] && StepLegal(pos, path[0], any) {
      hide Useful, OnlyIn, Lost, Seat;
      var next := After(pos, path[0], any);
      SaneAfter(pos, path[0], any);
      SeatNext(pos.turn, 0, pos.st.NumPlayers());
      if i == 0 {
        HolderMoves(pos, path[0], any, a, b);
        if Lost(next, a) {
          LostNeverWins(next, path[1..], any, a);
        } else {
          LostNeverWins(next, path[1..], any, b);
        }
      } else {
        var q := Seat(pos.turn, i, pos.st.NumPlayers());
        SeatDistinct(pos.turn, i, pos.st.NumPlayers());
        SeatNext(pos.turn, i - 1, pos.st.NumPlayers());
        OnlyInStays(pos, path[0], any, q, a);
        OnlyInStays(pos, path[0], any, q, b);
        TwoInOneTurn(next, path[1..], any, i - 1, a, b);
      }
    }
  }

  /** With one card left to draw, only one of two double holders can use a card before the last round. */
  lemma {:induction false} TwoStarters(pos: Pos, path: seq<Step>, any: bool, p: nat, q: nat, a: Id, b: Id, c: Id, d: Id)
    requires Sane(pos) && pos.st.cardsLeft == 1 && p != q && HoldsTwo(pos, p, a, b) && HoldsTwo(pos, q, c, d)
    ensures !Wins(pos, path, any)
    decreases |path|
  {
    UsefulNotWon(pos, a);
    if path != [] && StepLegal(pos, path[0], any) {
      StarterMoves(pos, path, any, p, q, a, b, c, d);
    }
  }

  lemma StarterMoves(pos: Pos, path: seq<Step>, any: bool, p: nat, q: nat, a: Id, b: Id, c: Id, d: Id)
    requires Sane(pos) && pos.st.cardsLeft == 1 && p != q && HoldsTwo(pos, p, a, b) && HoldsTwo(pos, q, c, d)
    requires path != [] && StepLegal(pos, path[0], any)
    ensures !Wins(After(pos, path[0], any), path[1..], any)
    decreases |path|, 0
  {
    var next := After(pos, path[0], any);
    SaneAfter(pos, path[0], any);
    if path[0].move.AnyClue? {
      OnlyInSame(pos, next, p, a);
      OnlyInSame(pos, next, p, b);
      OnlyInSame(pos, next, q, c);
      OnlyInSame(pos, next, q, d);
      TwoStarters(next, path[1..], any, p, q, a, b, c, d);
    } else {
      var (x, e, f) := if p != pos.turn then (p, a, b) else (q, c, d);
      OnlyInStays(pos, path[0], any, x, e);
      OnlyInStays(pos, path[0], any, x, f);
      SeatOf(next.turn, x, next.st.NumPlayers());
      var i :| 0 <= i < next.st.NumPlayers() && Seat(next.turn, i, next.st.NumPlayers()) == x;
      TwoInOneTurn(next, path[1..], any, i, e, f);
    }
  }

  lemma OnlyInSame(pos: Pos, next: Pos, q: nat, id: Id)
    requires pos.st.WellFormed() && OnlyIn(pos, q, id)
    requires next.st == pos.st.(clueTokens := next.st.clueTokens, endgameTurns := next.st.endgameTurns)
    requires next.remaining == pos.remaining
    ensures OnlyIn(next, q, id)
  {
  }

  // ----- The theorem -----

  /** Pruning is sound: no run from a pruned position reaches the maximum score. */
  lemma PruningIsSound(pos: Pos, any: bool)
    requires Sane(pos) && pos.st.Score() < pos.st.MaxScore() && Unwinnable(pos.st, pos.turn)
    ensures !CanWin(pos, any)
  {
    var st := pos.st;
    if st.Ended() {
      CanWinUnfold(pos, any);
    } else if st.Score() + Potential(pos) < st.MaxScore() {
      TooFewTurns(pos, any);
    } else if st.endgameTurns > 0 && exists i | 0 <= i < st.endgameTurns :: DoubleMust(st, Seat(pos.turn, i, st.NumPlayers())) {
      var i :| 0 <= i < st.endgameTurns && DoubleMust(st, Seat(pos.turn, i, st.NumPlayers()));
      var q := Seat(pos.turn, i, st.NumPlayers());
      MustPlaysTwo(pos, q);
      forall path: seq<Step>
        ensures !Wins(pos, path, any)
      {
        TwoInOneTurn(pos, path, any, i, MustPlays(st, q)[0], MustPlays(st, q)[1]);
      }
    } else {
      EnoughTurns(pos);
      DoubleStarters(pos, any);
    }
  }

  /** The pace, void-player and last-round rules are all the same bound. */
  lemma EnoughTurns(pos: Pos)
    requires Sane(pos) && !pos.st.Ended() && pos.st.Score() + Potential(pos) >= pos.st.MaxScore()
    ensures pos.st.Pace() >= 0 && VoidPlayers(pos.st) <= pos.st.Pace()
    ensures pos.st.endgameTurns > 0 ==> Ahead(pos.st, pos.turn, pos.st.endgameTurns) + pos.st.Score() >= pos.st.MaxScore()
  {
    AheadAll(pos.st, pos.turn);
    if pos.st.endgameTurns > 0 {
      AheadMonotone(pos.st, pos.turn, pos.st.endgameTurns, pos.st.NumPlayers());
    }
    VoidBounds(pos.st, pos.st.NumPlayers());
  }

  lemma {:induction false} VoidBounds(st: State, k: nat)
    requires st.WellFormed()
    ensures Ahead(st, 0, k) <= k
  {
    if k > 0 { VoidBounds(st, k - 1); }
  }

  lemma DoubleStarters(pos: Pos, any: bool)
    requires Sane(pos) && pos.st.cardsLeft == 1
    requires |set p | 0 <= p < |pos.st.hands| && DoubleMust(pos.st, p)| > 1
    ensures !CanWin(pos, any)
  {
    var s := set p | 0 <= p < |pos.st.hands| && DoubleMust(pos.st, p);
    var p :| p in s;
    assert |s - {p}| > 0;
    var q :| q in s - {p};
    MustPlaysTwo(pos, p);
    MustPlaysTwo(pos, q);
    forall path: seq<Step>
      ensures !Wins(pos, path, any)
    {
      TwoStarters(pos, path, any, p, q, MustPlays(pos.st, p)[0], MustPlays(pos.st, p)[1],
                  MustPlays(pos.st, q)[0], MustPlays(pos.st, q)[1]);
    }
  }

  // ----- Exactly which states are pruned -----

  /** The cards in hands are in the deck, and those that are known have identities of the variant. */
  ghost predicate NamedHands(st: State) {
    forall h, o | h in st.hands && o in h :: o < |st.deck| && (st.deck[o].Some? ==> st.ValidId(st.deck[o].value))
  }

  /** The player holds a card that is known to be one that its stack still has to take. */
  ghost predicate Contributes(st: State, p: nat)
    requires st.WellFormed() && p < |st.hands|
  {
    exists o :: o in st.hands[p] && o < |st.deck| && st.deck[o].Some? && st.ValidId(st.deck[o].value)
                && st.playStacks[st.deck[o].value.suit] < st.deck[o].value.rank <= st.maxRanks[st.deck[o].value.suit]
  }

  ghost function Contributors(st: State): set<nat>
    requires st.WellFormed()
  {
    set p: nat | p < |st.hands| && Contributes(st, p)
  }

  /** The next k turns of players who hold something that is needed. */
  ghost function UsefulTurns(st: State, turn: nat, k: nat): set<nat>
    requires st.WellFormed()
  {
    set i: nat | i < k && Contributes(st, Seat(turn, i, st.NumPlayers()))
  }

  /** The player alone can play two different cards that are needed. */
  ghost predicate MustPlayTwo(st: State, p: nat)
    requires st.WellFormed() && p < |st.hands|
  {
    exists a, b :: a != b && MustPlay(st, st.hands[p], a) && MustPlay(st, st.hands[p], b)
  }

  lemma DoubleMustExact(st: State, p: nat)
    requires st.WellFormed() && p < |st.hands|
    ensures DoubleMust(st, p) <==> MustPlayTwo(st, p)
  {
    hide MustPlay;
    var ids := MustPlays(st, p);
    if DoubleMust(st, p) {
      MustPlaysExact(st, p, ids[0]);
      MustPlaysExact(st, p, ids[1]);
      assert ids[0] != ids[1] && ids[0] in ids && ids[1] in ids;
    }
    if MustPlayTwo(st, p) {
      var a, b :| a != b && MustPlay(st, st.hands[p], a) && MustPlay(st, st.hands[p], b);
      MustPlaysExact(st, p, a);
      MustPlaysExact(st, p, b);
    }
  }

  lemma VoidExact(st: State, p: nat)
    requires st.WellFormed() && NamedHands(st) && p < |st.hands|
    ensures Void(st, p) <==> !Contributes(st, p)
  {
    assert st.hands[p] in st.hands;
  }

  lemma {:induction false} AheadCounts(st: State, turn: nat, k: nat)
    requires st.WellFormed() && NamedHands(st)
    ensures Ahead(st, turn, k) == |UsefulTurns(st, turn, k)|
  {
    hide Contributes, Void, NamedHands, Seat;
    if k > 0 {
      var (n, before) := (st.NumPlayers(), UsefulTurns(st, turn, k - 1));
      AheadCounts(st, turn, k - 1);
      VoidExact(st, Seat(turn, k - 1, n));
      assert UsefulTurns(st, turn, k) == if Contributes(st, Seat(turn, k - 1, n)) then before + {k - 1} else before;
    }
  }

  lemma ContributorsCount(st: State)
    requires st.WellFormed() && NamedHands(st)
    ensures VoidPlayers(st) == st.NumPlayers() - |Contributors(st)| && |Contributors(st)| <= st.NumPlayers()
  {
    var n := st.NumPlayers();
    AheadCounts(st, 0, n);
    VoidBounds(st, n);
    forall i: nat | i < n
      ensures Seat(0, i, n) == i
    {
      SeatValue(0, i, n);
    }
    hide Contributes;
    assert UsefulTurns(st, 0, n) == Contributors(st);
  }

  lemma TwoMembers(s: set<nat>)
    ensures |s| > 1 <==> exists p, q :: p < q && p in s && q in s
  {
    if |s| > 1 {
      var p :| p in s;
      assert |s - {p}| > 0;
      var q :| q in s - {p};
      var (a, b) := if p < q then (p, q) else (q, p);
      assert a < b && a in s && b in s;
    }
    if p, q :| p < q && p in s && q in s {
      SubsetCardinality({p, q}, s);
    }
  }

  lemma StartersExact(st: State)
    requires st.WellFormed()
    ensures |set p | 0 <= p < |st.hands| && DoubleMust(st, p)| > 1
            <==> exists p, q :: 0 <= p < q < |st.hands| && MustPlayTwo(st, p) && MustPlayTwo(st, q)
  {
    hide DoubleMust, MustPlayTwo;
    forall p: nat | p < |st.hands|
      ensures DoubleMust(st, p) <==> MustPlayTwo(st, p)
    {
      DoubleMustExact(st, p);
    }
    var s: set<nat> := set p: nat | p < |st.hands| && DoubleMust(st, p);
    assert s == set p | 0 <= p < |st.hands| && DoubleMust(st, p);
    TwoMembers(s);
    if p, q :| p < q && p in s && q in s {
      assert MustPlayTwo(st, p) && MustPlayTwo(st, q);
    }
    if p, q :| 0 <= p < q < |st.hands| && MustPlayTwo(st, p) && MustPlayTwo(st, q) {
      assert p in s && q in s;
    }
  }

  /** A state is given up exactly if the game has ended, or the cards to draw and the players who hold something needed are
      fewer than the points missing, or in the last round the turns of such players are, or then a player has to play two
      cards, or two players have to before a last card is drawn. */
  lemma PrunedExactly(st: State, turn: nat)
    requires st.WellFormed() && NamedHands(st)
    ensures Unwinnable(st, turn) <==>
              || st.endgameTurns == 0
              || st.Score() + st.cardsLeft + |Contributors(st)| < st.MaxScore()
              || (st.endgameTurns > 0
                  && (st.Score() + |UsefulTurns(st, turn, st.endgameTurns)| < st.MaxScore()
                      || exists i: nat :: i < st.endgameTurns && MustPlayTwo(st, Seat(turn, i, st.NumPlayers()))))
              || (st.cardsLeft == 1
                  && exists p, q :: 0 <= p < q < |st.hands| && MustPlayTwo(st, p) && MustPlayTwo(st, q))
  {
    hide Contributors, UsefulTurns, MustPlayTwo, DoubleMust, VoidPlayers, Ahead, State.Score, State.MaxScore;
    ContributorsCount(st);
    StartersExact(st);
    if st.endgameTurns > 0 {
      AheadCounts(st, turn, st.endgameTurns);
      forall i: nat | i < st.endgameTurns
        ensures DoubleMust(st, Seat(turn, i, st.NumPlayers())) <==> MustPlayTwo(st, Seat(turn, i, st.NumPlayers()))
      {
        DoubleMustExact(st, Seat(turn, i, st.NumPlayers()));
      }
    }
  }
}
