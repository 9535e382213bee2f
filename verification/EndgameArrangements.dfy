// `gen_hypo_games`, `expand_arr` and the normalisation in `solve_game` of src/conventions/shared/endgame.js:
// no probability is lost or made up.
module EndgameArrangements {
  import opened Cards
  import opened EndgameSteps
  import opened EndgameGame
  import opened Fractions
  import opened EndgameOdds

  ghost predicate Listing(remaining: seq<Remaining>) {
    forall r | r in remaining :: r.missing >= 1
  }

  function Total(remaining: seq<Remaining>): nat {
    if remaining == [] then 0 else remaining[0].missing + Total(remaining[1..])
  }

  function Whole(n: int): Fraction { Fraction(n, 1) }

  /** The fraction is m out of n. */
  ghost predicate Share(f: Fraction, m: int, n: int) {
    f.Ok() && f.Value() * n as real == m as real
  }

  lemma WholeValue(n: int)
    ensures Whole(n).Value() == n as real
  {
  }

  /** Drawing a card takes exactly one off the total. */
  lemma {:induction false} TotalAfterDraw(remaining: seq<Remaining>, id: Id)
    requires Listing(remaining) && Drawable(remaining, id)
    ensures Total(RemoveRemaining(remaining, id)) == Total(remaining) - 1
  {
    assert remaining[0] in remaining;
    var next := RemoveRemaining(remaining, id);
    if remaining[0].id == id {
      if remaining[0].missing > 1 { assert next[1..] == remaining[1..]; }
    } else {
      var r :| r in remaining && r.id == id;
      assert r in remaining[1..];
      TotalAfterDraw(remaining[1..], id);
      assert next[1..] == RemoveRemaining(remaining[1..], id);
    }
  }

  lemma {:induction false} TotalAtLeast(remaining: seq<Remaining>, k: nat)
    requires k < |remaining|
    ensures Total(remaining) >= remaining[k].missing
  {
    if k > 0 { TotalAtLeast(remaining[1..], k - 1); }
  }

  // ----- gen_hypo_games -----

  lemma {:induction false} MassOfDraws(games: seq<HypoGame>, remaining: seq<Remaining>, n: nat, k: nat)
    requires n > 0 && k <= |games| == |remaining| && GamesOk(games)
    requires forall i | 0 <= i < |games| :: games[i].prob.Value() == remaining[i].missing as real / n as real
    ensures Mass(games, k) == Total(remaining[k..]) as real / n as real
    decreases |games| - k
  {
    if k < |games| {
      MassOfDraws(games, remaining, n, k + 1);
      assert remaining[k..][1..] == remaining[k + 1..];
      SumOverReal(remaining[k].missing as real, Total(remaining[k + 1..]) as real, n as real);
    }
  }

  lemma SelfDivide(n: real)
    requires n > 0.0
    ensures n / n == 1.0
  {
  }

  lemma SumOverReal(a: real, b: real, n: real)
    requires n > 0.0
    ensures a / n + b / n == (a + b) / n
  {
  }

  /** Exactly the drawn card is off the list, which is well-formed again. */
  ghost predicate LeftAfter(remaining: seq<Remaining>, id: Id, left: seq<Remaining>) {
    && Listing(left) && (RemainingOk(remaining) ==> RemainingOk(left)) && Total(left) == Total(remaining) - 1
    && forall x :: Missing(left, x) == Missing(remaining, x) - if x == id then 1 else 0
  }

  lemma DrawLeaves(remaining: seq<Remaining>, id: Id)
    requires Listing(remaining) && Drawable(remaining, id)
    ensures LeftAfter(remaining, id, RemoveRemaining(remaining, id))
  {
    TotalAfterDraw(remaining, id);
    RemoveRemainingEntries(remaining, id);
    if RemainingOk(remaining) { RemoveRemainingOk(remaining, id); }
    forall x
      ensures Missing(RemoveRemaining(remaining, id), x) == Missing(remaining, x) - if x == id then 1 else 0
    {
      RemoveRemainingCounts(remaining, id, x);
    }
  }

  /** `gen_hypo_games`: the current game for clues, and one game for every card that may be drawn. */
  method GenHypoGames(allClues: bool, remaining: seq<Remaining>, cardsLeft: nat)
      returns (undrawn: seq<HypoGame>, drawn: seq<HypoGame>, left: seq<seq<Remaining>>)
    requires Listing(remaining) && Total(remaining) == cardsLeft
    ensures undrawn == [HypoGame(ONE, None)] && GamesOk(drawn) && |left| == |drawn|
    ensures GamesOk(undrawn) && Mass(undrawn, 0) == 1.0
    ensures allClues ==> drawn == []
    ensures !allClues ==> Mass(drawn, 0) == 1.0
    ensures !allClues && remaining == [] ==> drawn == undrawn && left == [remaining]
    ensures !allClues && remaining != [] ==>
              |drawn| == |remaining| && forall i | 0 <= i < |drawn| ::
                drawn[i].drew == Some(remaining[i].id) && Share(drawn[i].prob, remaining[i].missing, cardsLeft)
                && LeftAfter(remaining, remaining[i].id, left[i])
  {
    CertainGame();
    hide Share, Mass, GamesOk, LeftAfter;
    undrawn, drawn, left := [HypoGame(ONE, None)], [], [];
    if allClues {
      return;
    }
    for i := 0 to |remaining|
      invariant |drawn| == |left| == i
      invariant forall j | 0 <= j < i :: drawn[j] == HypoGame(Fraction(remaining[j].missing, cardsLeft), Some(remaining[j].id))
      invariant forall j | 0 <= j < i :: LeftAfter(remaining, remaining[j].id, left[j])
    {
      assert remaining[i] in remaining;
      DrawLeaves(remaining, remaining[i].id);
      drawn := drawn + [HypoGame(Fraction(remaining[i].missing, cardsLeft), Some(remaining[i].id))];
      left := left + [RemoveRemaining(remaining, remaining[i].id)];
    }
    if remaining == [] {
      drawn, left := undrawn, [remaining];
    } else {
      DrawsAreCertain(drawn, remaining, cardsLeft);
    }
  }

  lemma CertainGame()
    ensures GamesOk([]) && GamesOk([HypoGame(ONE, None)]) && Mass([HypoGame(ONE, None)], 0) == 1.0
  {
    ValueOfConstants();
    assert Mass([HypoGame(ONE, None)], 1) == 0.0;
  }

  lemma DrawProb(m: int, n: int)
    requires m >= 0 && n > 0
    ensures Fraction(m, n).Value() == m as real / n as real && Fraction(m, n).Value() >= 0.0 && Share(Fraction(m, n), m, n)
  {
    ValueIs(Fraction(m, n), 0.0);
  }

  /** The draws together are certain. */
  lemma {:induction false} DrawsAreCertain(games: seq<HypoGame>, remaining: seq<Remaining>, cardsLeft: nat)
    requires remaining != [] && Listing(remaining) && Total(remaining) == cardsLeft && |games| == |remaining|
    requires forall j | 0 <= j < |games| :: games[j].prob == Fraction(remaining[j].missing, cardsLeft)
    ensures cardsLeft > 0 && GamesOk(games) && Mass(games, 0) == 1.0
    ensures forall j | 0 <= j < |games| :: Share(games[j].prob, remaining[j].missing, cardsLeft)
  {
    assert remaining[0] in remaining;
    TotalAtLeast(remaining, 0);
    forall j | 0 <= j < |games|
      ensures games[j].prob.Ok() && games[j].prob.Value() >= 0.0
      ensures games[j].prob.Value() == remaining[j].missing as real / cardsLeft as real
      ensures Share(games[j].prob, remaining[j].missing, cardsLeft)
    {
      DrawProb(remaining[j].missing, cardsLeft);
    }
    hide Fraction.Value, Share;
    MassOfDraws(games, remaining, cardsLeft, 0);
    assert remaining[0..] == remaining;
    SelfDivide(cardsLeft as real);
  }

  // ----- expand_arr -----

  /** Identities for the first unknown cards, how likely they are, and what is left to draw. */
  datatype Arrangement = Arrangement(ids: seq<Id>, prob: Fraction, remaining: seq<Remaining>)

  /** Which identity the next unknown card may have, given those before it; what the player believes decides it. */
  type Belief = (seq<Id>, Id) -> bool

  ghost predicate Positive(arr: Arrangement) {
    Listing(arr.remaining) && arr.prob.Ok() && arr.prob.Value() > 0.0
  }

  ghost predicate Usable(arrs: seq<Arrangement>) {
    forall arr | arr in arrs :: Listing(arr.remaining) && arr.prob.Ok()
  }

  ghost predicate AllPositive(arrs: seq<Arrangement>) {
    Usable(arrs) && forall arr | arr in arrs :: Positive(arr)
  }

  function Child(arr: Arrangement, k: nat): (c: Arrangement)
    requires k < |arr.remaining| && Listing(arr.remaining) && arr.prob.Ok()
    ensures c.prob.Ok() && Listing(c.remaining)
  {
    var r := arr.remaining[k];
    assert r in arr.remaining;
    TotalAtLeast(arr.remaining, k);
    RemoveRemainingEntries(arr.remaining, r.id);
    Arrangement(arr.ids + [r.id], Divide(Multiply(arr.prob, Whole(r.missing)), Whole(Total(arr.remaining))), RemoveRemaining(arr.remaining, r.id))
  }

  /** `expand_arr`, from entry k of the remaining identities on. */
  function ExpandFrom(arr: Arrangement, possible: Belief, k: nat): (cs: seq<Arrangement>)
    requires k <= |arr.remaining| && Listing(arr.remaining) && arr.prob.Ok()
    ensures Usable(cs)
    decreases |arr.remaining| - k
  {
    if k == |arr.remaining| then []
    else (if possible(arr.ids, arr.remaining[k].id) then [Child(arr, k)] else []) + ExpandFrom(arr, possible, k + 1)
  }

  /** `arrangements.flatMap(expand_arr)` */
  function ExpandAll(arrs: seq<Arrangement>, possible: Belief): (cs: seq<Arrangement>)
    requires Usable(arrs)
    ensures Usable(cs)
  {
    if arrs == [] then [] else ExpandFrom(arrs[0], possible, 0) + ExpandAll(arrs[1..], possible)
  }

  ghost function ProbSum(arrs: seq<Arrangement>): real
    requires Usable(arrs)
  {
    if arrs == [] then 0.0 else arrs[0].prob.Value() + ProbSum(arrs[1..])
  }

  lemma {:induction false} ProbSumAppend(a: seq<Arrangement>, b: seq<Arrangement>)
    requires Usable(a) && Usable(b)
    ensures ProbSum(a + b) == ProbSum(a) + ProbSum(b)
  {
    if a == [] {
      assert a + b == b;
    } else {
      assert (a + b)[1..] == a[1..] + b;
      ProbSumAppend(a[1..], b);
    }
  }

  ghost function Times(x: real, y: real): real { x * y }

  lemma {:induction false} ChildValue(arr: Arrangement, k: nat)
    requires k < |arr.remaining| && Positive(arr)
    ensures Total(arr.remaining) > 0 && arr.remaining[k].missing > 0
    ensures Times(Child(arr, k).prob.Value(), Total(arr.remaining) as real) == Times(arr.prob.Value(), arr.remaining[k].missing as real)
  {
    assert arr.remaining[k] in arr.remaining;
    TotalAtLeast(arr.remaining, k);
    SharedProb(arr.prob, arr.remaining[k].missing, Total(arr.remaining));
  }

  /** `prob.multiply(missing).divide(total_cards)` */
  lemma SharedProb(prob: Fraction, m: int, n: int)
    requires prob.Ok() && n > 0
    ensures Times(Divide(Multiply(prob, Whole(m)), Whole(n)).Value(), n as real) == Times(prob.Value(), m as real)
  {
    WholeValue(m);
    WholeValue(n);
    hide Multiply, Divide, Fraction.Value;
    MultiplyValue(prob, Whole(m));
    DivideValue(Multiply(prob, Whole(m)), Whole(n));
  }

  lemma {:induction false} ChildPositive(arr: Arrangement, k: nat)
    requires k < |arr.remaining| && Positive(arr)
    ensures Positive(Child(arr, k)) && Total(Child(arr, k).remaining) + 1 == Total(arr.remaining)
  {
    var r := arr.remaining[k];
    assert r in arr.remaining;
    RemoveRemainingEntries(arr.remaining, r.id);
    TotalAfterDraw(arr.remaining, r.id);
    ChildValue(arr, k);
    hide Multiply, Divide, Fraction.Value, RemoveRemaining, Total, Times;
    PositiveReal(Child(arr, k).prob.Value(), Total(arr.remaining) as real, arr.prob.Value(), r.missing as real);
  }

  lemma PositiveReal(x: real, n: real, p: real, m: real)
    requires Times(x, n) == Times(p, m) && n > 0.0 && p > 0.0 && m > 0.0
    ensures x > 0.0
  {
    assert p * m > 0.0;
  }

  lemma ShareReal(x: real, rest: real, n: real, p: real, m: real, t: real)
    requires Times(x, n) == Times(p, m) && p > 0.0 && m > 0.0
    ensures Times(rest, n) <= Times(p, t) ==> Times(x + rest, n) <= Times(p, m + t) && Times(rest, n) <= Times(p, m + t)
    ensures Times(rest, n) == Times(p, t) ==> Times(x + rest, n) == Times(p, m + t)
  {
    assert (x + rest) * n == x * n + rest * n;
    assert p * (m + t) == p * m + p * t && p * m > 0.0;
  }

  /** Every expanded arrangement has one more identity and one card less to draw. */
  lemma {:induction false} ExpandFromKeeps(arr: Arrangement, possible: Belief, k: nat)
    requires k <= |arr.remaining| && Positive(arr)
    ensures forall c | c in ExpandFrom(arr, possible, k) ::
              Positive(c) && |c.ids| == |arr.ids| + 1 && Total(c.remaining) + 1 == Total(arr.remaining)
    decreases |arr.remaining| - k
  {
    if k < |arr.remaining| {
      ExpandFromKeeps(arr, possible, k + 1);
      ChildPositive(arr, k);
      assert |Child(arr, k).ids| == |arr.ids| + 1;
      hide Positive, Child, Total;
    }
  }

  /** The expanded arrangements share their parent's probability; all of it, if every identity is possible. */
  lemma {:induction false} ExpandFromShares(arr: Arrangement, possible: Belief, k: nat)
    requires k <= |arr.remaining| && Positive(arr)
    ensures Times(ProbSum(ExpandFrom(arr, possible, k)), Total(arr.remaining) as real) <= Times(arr.prob.Value(), Total(arr.remaining[k..]) as real)
    ensures (forall i | k <= i < |arr.remaining| :: possible(arr.ids, arr.remaining[i].id)) ==>
              Times(ProbSum(ExpandFrom(arr, possible, k)), Total(arr.remaining) as real) == Times(arr.prob.Value(), Total(arr.remaining[k..]) as real)
    decreases |arr.remaining| - k
  {
    hide Child, Total, ExpandFrom, ProbSum, Fraction.Value, Times;
    if k == |arr.remaining| {
      ExpandNothing(arr, possible);
    } else {
      ChildValue(arr, k);
      ExpandFirst(arr, possible, k);
      ExpandFromShares(arr, possible, k + 1);
      ShareReal(Child(arr, k).prob.Value(), ProbSum(ExpandFrom(arr, possible, k + 1)), Total(arr.remaining) as real, arr.prob.Value(),
                arr.remaining[k].missing as real, Total(arr.remaining[k + 1..]) as real);
    }
  }

  lemma ExpandNothing(arr: Arrangement, possible: Belief)
    requires Positive(arr)
    ensures var k := |arr.remaining|;
            Times(ProbSum(ExpandFrom(arr, possible, k)), Total(arr.remaining) as real) == 0.0
            && Times(arr.prob.Value(), Total(arr.remaining[k..]) as real) == 0.0
  {
    assert arr.remaining[|arr.remaining|..] == [];
  }

  lemma ExpandFirst(arr: Arrangement, possible: Belief, k: nat)
    requires k < |arr.remaining| && Positive(arr)
    ensures var rest := ExpandFrom(arr, possible, k + 1);
            ProbSum(ExpandFrom(arr, possible, k))
            == if possible(arr.ids, arr.remaining[k].id) then Child(arr, k).prob.Value() + ProbSum(rest) else ProbSum(rest)
    ensures Total(arr.remaining[k..]) == arr.remaining[k].missing + Total(arr.remaining[k + 1..])
  {
    assert arr.remaining[k..][1..] == arr.remaining[k + 1..];
    var rest := ExpandFrom(arr, possible, k + 1);
    if possible(arr.ids, arr.remaining[k].id) {
      assert ([Child(arr, k)] + rest)[1..] == rest;
    } else {
      assert ExpandFrom(arr, possible, k) == rest;
    }
  }

  ghost predicate AllPossible(possible: Belief) {
    forall ids: seq<Id>, id: Id :: possible(ids, id)
  }

  lemma ShareOfOne(arr: Arrangement, possible: Belief)
    requires Positive(arr)
    ensures ProbSum(ExpandFrom(arr, possible, 0)) <= arr.prob.Value()
    ensures AllPossible(possible) && Total(arr.remaining) > 0 ==> ProbSum(ExpandFrom(arr, possible, 0)) == arr.prob.Value()
  {
    ExpandFromShares(arr, possible, 0);
    assert arr.remaining[0..] == arr.remaining;
    if arr.remaining == [] {
      assert ProbSum(ExpandFrom(arr, possible, 0)) == 0.0;
    } else {
      assert arr.remaining[0] in arr.remaining;
      TotalAtLeast(arr.remaining, 0);
      hide ExpandFrom, ProbSum, Total, Fraction.Value;
      CancelTimes(ProbSum(ExpandFrom(arr, possible, 0)), arr.prob.Value(), Total(arr.remaining) as real);
    }
  }

  lemma CancelTimes(x: real, y: real, n: real)
    requires n > 0.0
    ensures Times(x, n) <= Times(y, n) ==> x <= y
    ensures Times(x, n) == Times(y, n) ==> x == y
  {
    if x > y { assert x * n > y * n; }
    if x < y { assert x * n < y * n; }
  }

  /** A round of expansion over all arrangements. */
  lemma {:induction false} ExpandAllKeeps(arrs: seq<Arrangement>, possible: Belief, n: nat, t: nat)
    requires AllPositive(arrs) && forall arr | arr in arrs :: |arr.ids| == n && Total(arr.remaining) == t
    ensures AllPositive(ExpandAll(arrs, possible))
    ensures forall c | c in ExpandAll(arrs, possible) :: |c.ids| == n + 1 && Total(c.remaining) + 1 == t
    ensures ProbSum(ExpandAll(arrs, possible)) <= ProbSum(arrs)
    ensures AllPossible(possible) && t > 0 ==> ProbSum(ExpandAll(arrs, possible)) == ProbSum(arrs)
  {
    if arrs != [] {
      assert arrs[0] in arrs && forall arr | arr in arrs[1..] :: arr in arrs;
      ExpandAllKeeps(arrs[1..], possible, n, t);
      ExpandFromKeeps(arrs[0], possible, 0);
      ShareOfOne(arrs[0], possible);
      ProbSumAppend(ExpandFrom(arrs[0], possible, 0), ExpandAll(arrs[1..], possible));
      hide Positive, Total, ExpandFrom, Fraction.Value, AllPossible;
    }
  }

  // ----- Which arrangements there are -----

  /** What is left after dealing these identities to the first unknown cards, if that is possible. */
  ghost function DealOut(start: seq<Remaining>, possible: Belief, ids: seq<Id>): (r: Option<seq<Remaining>>)
    requires Listing(start)
    ensures r.Some? ==> Listing(r.value)
    decreases |ids|
  {
    if ids == [] then Some(start)
    else
      var (front, last) := (ids[..|ids| - 1], ids[|ids| - 1]);
      var left := DealOut(start, possible, front);
      if left.Some? && Drawable(left.value, last) && possible(front, last) then
        RemoveRemainingEntries(left.value, last);
        Some(RemoveRemaining(left.value, last))
      else None
  }

  /** The arrangement deals its identities from the start list. */
  ghost predicate Deals(start: seq<Remaining>, possible: Belief, arr: Arrangement)
    requires Listing(start)
  {
    DealOut(start, possible, arr.ids) == Some(arr.remaining)
  }

  lemma {:induction false} ExpandFromDeals(start: seq<Remaining>, arr: Arrangement, possible: Belief, k: nat)
    requires Listing(start) && Deals(start, possible, arr) && Positive(arr) && k <= |arr.remaining|
    ensures forall c | c in ExpandFrom(arr, possible, k) :: Deals(start, possible, c)
    ensures forall i | k <= i < |arr.remaining| && possible(arr.ids, arr.remaining[i].id) :: Child(arr, i) in ExpandFrom(arr, possible, k)
    decreases |arr.remaining| - k
  {
    if k < |arr.remaining| {
      if possible(arr.ids, arr.remaining[k].id) { ChildDeals(start, arr, possible, k); }
      hide Deals, Child, Positive;
      ExpandFromDeals(start, arr, possible, k + 1);
    }
  }

  lemma ChildDeals(start: seq<Remaining>, arr: Arrangement, possible: Belief, k: nat)
    requires Listing(start) && Deals(start, possible, arr) && Positive(arr) && k < |arr.remaining| && possible(arr.ids, arr.remaining[k].id)
    ensures Deals(start, possible, Child(arr, k))
  {
    var c := Child(arr, k);
    assert arr.remaining[k] in arr.remaining;
    assert c.ids[..|c.ids| - 1] == arr.ids;
  }

  lemma {:induction false} ExpandAllMember(arrs: seq<Arrangement>, possible: Belief, j: nat, c: Arrangement)
    requires AllPositive(arrs) && j < |arrs| && c in ExpandFrom(arrs[j], possible, 0)
    ensures c in ExpandAll(arrs, possible)
  {
    if j > 0 {
      assert forall arr | arr in arrs[1..] :: arr in arrs;
      ExpandAllMember(arrs[1..], possible, j - 1, c);
    }
  }

  lemma {:induction false} ExpandAllDeals(start: seq<Remaining>, arrs: seq<Arrangement>, possible: Belief)
    requires Listing(start) && AllPositive(arrs) && forall arr | arr in arrs :: Deals(start, possible, arr)
    ensures forall c | c in ExpandAll(arrs, possible) :: Deals(start, possible, c)
  {
    if arrs != [] {
      assert arrs[0] in arrs && forall arr | arr in arrs[1..] :: arr in arrs;
      ExpandAllDeals(start, arrs[1..], possible);
      ExpandFromDeals(start, arrs[0], possible, 0);
      hide Positive, Deals;
    }
  }

  /** Every way to deal n identities is listed. */
  ghost predicate AllListed(start: seq<Remaining>, possible: Belief, arrs: seq<Arrangement>, n: nat)
    requires Listing(start)
  {
    forall ids | |ids| == n && DealOut(start, possible, ids).Some? :: exists arr :: arr in arrs && arr.ids == ids
  }

  lemma ExpandAllListed(start: seq<Remaining>, arrs: seq<Arrangement>, possible: Belief, n: nat)
    requires Listing(start) && AllListed(start, possible, arrs, n)
    requires AllPositive(arrs) && forall arr | arr in arrs :: Deals(start, possible, arr)
    ensures AllListed(start, possible, ExpandAll(arrs, possible), n + 1)
  {
    forall ids | |ids| == n + 1 && DealOut(start, possible, ids).Some?
      ensures exists c :: c in ExpandAll(arrs, possible) && c.ids == ids
    {
      assert DealOut(start, possible, ids[..n]).Some?;
      var arr :| arr in arrs && arr.ids == ids[..n];
      var j :| 0 <= j < |arrs| && arrs[j] == arr;
      var i := NextChild(start, arr, possible, ids);
      hide DealOut, ExpandAll, Positive;
      ExpandAllMember(arrs, possible, j, Child(arr, i));
    }
  }

  lemma NextChild(start: seq<Remaining>, arr: Arrangement, possible: Belief, ids: seq<Id>) returns (i: nat)
    requires Listing(start) && Deals(start, possible, arr) && Positive(arr)
    requires ids != [] && arr.ids == ids[..|ids| - 1] && DealOut(start, possible, ids).Some?
    ensures i < |arr.remaining| && Child(arr, i).ids == ids && Child(arr, i) in ExpandFrom(arr, possible, 0)
  {
    var last := ids[|ids| - 1];
    var r :| r in arr.remaining && r.id == last;
    i :| 0 <= i < |arr.remaining| && arr.remaining[i] == r;
    ExpandFromDeals(start, arr, possible, 0);
    assert arr.ids + [last] == ids;
  }

  /** The loop over the unknown cards of the own hand. */
  method Arrange(remaining: seq<Remaining>, unknown: nat, possible: Belief) returns (arrs: seq<Arrangement>)
    requires Listing(remaining)
    ensures AllPositive(arrs) && forall arr | arr in arrs ::
              |arr.ids| == unknown && Total(arr.remaining) + unknown == Total(remaining) && Deals(remaining, possible, arr)
    ensures AllListed(remaining, possible, arrs, unknown)
    ensures ProbSum(arrs) <= 1.0
    ensures AllPossible(possible) && unknown <= Total(remaining) ==> ProbSum(arrs) == 1.0
  {
    ValueOfConstants();
    arrs := [Arrangement([], ONE, remaining)];
    assert ProbSum(arrs) == 1.0 + ProbSum(arrs[1..]);
    assert AllListed(remaining, possible, arrs, 0) by { assert arrs[0] in arrs; }
    hide Positive, Deals, AllListed, AllPossible, ExpandAll, ProbSum, Total;
    for i := 0 to unknown
      invariant AllPositive(arrs) && forall arr | arr in arrs ::
                  |arr.ids| == i && Total(arr.remaining) + i == Total(remaining) && Deals(remaining, possible, arr)
      invariant AllListed(remaining, possible, arrs, i) && ProbSum(arrs) <= 1.0
      invariant AllPossible(possible) && i <= Total(remaining) ==> ProbSum(arrs) == 1.0
    {
      if arrs != [] {
        assert arrs[0] in arrs;
        ExpandAllKeeps(arrs, possible, i, Total(arrs[0].remaining));
      } else {
        ExpandAllKeeps(arrs, possible, i, 0);
      }
      ExpandAllDeals(remaining, arrs, possible);
      ExpandAllListed(remaining, arrs, possible, i);
      arrs := ExpandAll(arrs, possible);
    }
  }

  // ----- Normalisation -----

  lemma {:induction false} ProbSumPositive(arrs: seq<Arrangement>)
    requires AllPositive(arrs)
    ensures ProbSum(arrs) >= 0.0 && (arrs != [] ==> ProbSum(arrs) > 0.0)
  {
    if arrs != [] {
      assert arrs[0] in arrs && forall arr | arr in arrs[1..] :: arr in arrs;
      ProbSumPositive(arrs[1..]);
    }
  }

  method SumOf(arrs: seq<Arrangement>) returns (sum: Fraction)
    requires Usable(arrs)
    ensures sum.Ok() && sum.Value() == ProbSum(arrs)
  {
    sum := ZERO;
    ValueOfConstants();
    for i := 0 to |arrs|
      invariant sum.Ok() && sum.Value() == ProbSum(arrs[..i])
    {
      assert arrs[..i + 1] == arrs[..i] + [arrs[i]] && arrs[i] in arrs;
      ProbSumAppend(arrs[..i], [arrs[i]]);
      assert ProbSum([arrs[i]]) == arrs[i].prob.Value() + ProbSum([arrs[i]][1..]);
      PlusValue(sum, arrs[i].prob);
      hide Plus, Fraction.Value;
      sum := Plus(sum, arrs[i].prob);
    }
    assert arrs[..|arrs|] == arrs;
  }

  /** Each arrangement keeps its identities, and its probability is divided by the sum. */
  ghost predicate Divided(arrs: seq<Arrangement>, ns: seq<Arrangement>, sum: real) {
    && |ns| == |arrs| && Usable(ns) && Usable(arrs)
    && forall i | 0 <= i < |arrs| :: DividedBy(arrs[i], ns[i], sum)
  }

  ghost predicate DividedBy(a: Arrangement, n: Arrangement, sum: real) {
    a.prob.Ok() && n.prob.Ok() && n.ids == a.ids && n.remaining == a.remaining && Times(n.prob.Value(), sum) == a.prob.Value()
  }

  lemma {:induction false} DividedSum(arrs: seq<Arrangement>, ns: seq<Arrangement>, sum: real)
    requires Divided(arrs, ns, sum)
    ensures Times(ProbSum(ns), sum) == ProbSum(arrs)
  {
    if arrs == [] {
      assert ProbSum(ns) == 0.0;
    } else {
      assert DividedBy(arrs[0], ns[0], sum);
      assert forall i | 0 <= i < |arrs[1..]| :: arrs[1..][i] == arrs[i + 1] && ns[1..][i] == ns[i + 1];
      DividedSum(arrs[1..], ns[1..], sum);
      hide Fraction.Value;
      TimesSum(ns[0].prob.Value(), ProbSum(ns[1..]), sum);
    }
  }

  lemma TimesSum(a: real, b: real, n: real)
    ensures Times(a + b, n) == Times(a, n) + Times(b, n)
  {
  }

  lemma DivideTimes(f: Fraction, g: Fraction)
    requires f.Ok() && g.Ok() && g.numerator > 0
    ensures Times(Divide(f, g).Value(), g.Value()) == f.Value()
  {
    DivideValue(f, g);
  }

  lemma OneTimes(x: real, n: real)
    requires Times(x, n) == n && n > 0.0
    ensures x == 1.0
  {
    CancelTimes(x, 1.0, n);
    assert Times(1.0, n) == n;
  }

  /** Dividing every probability by the sum makes them add up to one. */
  method Normalise(arrs: seq<Arrangement>) returns (ns: seq<Arrangement>)
    requires AllPositive(arrs)
    ensures Divided(arrs, ns, ProbSum(arrs)) && (arrs != [] ==> ProbSum(ns) == 1.0)
  {
    var sum := SumOf(arrs);
    ProbSumPositive(arrs);
    ns := [];
    if arrs == [] {
      return;
    }
    ValueIs(sum, 0.0);
    hide Fraction.Value, Divide, Times;
    for i := 0 to |arrs|
      invariant |ns| == i && Usable(ns) && forall j | 0 <= j < i :: DividedBy(arrs[j], ns[j], sum.Value())
    {
      assert arrs[i] in arrs;
      DivideTimes(arrs[i].prob, sum);
      ns := ns + [Arrangement(arrs[i].ids, Divide(arrs[i].prob, sum), arrs[i].remaining)];
    }
    DividedSum(arrs, ns, sum.Value());
    OneTimes(ProbSum(ns), sum.Value());
  }

  /** The arrangements that `solve_game` tries, without the Monte Carlo selection: in each of them exactly the
      undrawn cards are left, and if there are any, their probabilities add up to one. */
  method Arrangements(remaining: seq<Remaining>, unknown: nat, possible: Belief, cardsLeft: nat) returns (ns: seq<Arrangement>)
    requires Listing(remaining) && Total(remaining) == cardsLeft + unknown
    ensures Usable(ns) && forall n | n in ns :: |n.ids| == unknown && Total(n.remaining) == cardsLeft && Deals(remaining, possible, n)
    ensures ns != [] ==> ProbSum(ns) == 1.0
    ensures ns == [] <==> forall ids | |ids| == unknown :: DealOut(remaining, possible, ids).None?
  {
    var arrs := Arrange(remaining, unknown, possible);
    ns := Normalise(arrs);
    hide Total, DealOut, ProbSum;
    forall n | n in ns
      ensures |n.ids| == unknown && Total(n.remaining) == cardsLeft && Deals(remaining, possible, n)
    {
      var i :| 0 <= i < |ns| && ns[i] == n;
      assert DividedBy(arrs[i], ns[i], ProbSum(arrs)) && arrs[i] in arrs;
    }
    if arrs != [] {
      assert arrs[0] in arrs;
      assert DealOut(remaining, possible, arrs[0].ids).Some?;
    }
  }
}
