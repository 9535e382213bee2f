// `winnable_simpler` and `winnable_if` of src/conventions/shared/endgame-helper.js: the pruned, memoised search
// answers exactly whether some run of the unpruned game reaches the maximum score.
module EndgameSearch {
  import opened Cards
  import opened GameState
  import opened Table
  import opened EndgameSteps
  import EndgameOdds
  import opened EndgameGame
  import opened EndgamePruning
  import opened DiscardSymmetry
  import opened MemoKey

  // ----- Positions the cache is asked about -----

  /** Neither won nor pruned: the search looks the position up. */
  ghost predicate LooksUp(root: Pos, pos: Pos) {
    From(root, pos) && !Won(pos.st) && !Unwinnable(pos.st, pos.turn)
  }

  /** Positions with one key have one verdict, when so many turns are left. */
  ghost predicate Agree(root: Pos, turns: int) {
    forall a, b | LooksUp(root, a) && LooksUp(root, b) && KeyOf(a) == KeyOf(b) && a.st.endgameTurns == turns ::
      CanWin(a, false) == CanWin(b, false)
  }

  /** Positions with one key have one verdict. */
  ghost predicate KeysAgree(root: Pos) {
    forall turns: int :: Agree(root, turns)
  }

  /** The key is adequate before the last round, for its first two turns and for its last one. */
  lemma KeysAgreeAt(root: Pos, turns: int)
    requires Sane(root)
    requires turns <= 1 || turns >= root.st.NumPlayers() || (turns == root.st.NumPlayers() - 1 && Identified(root.st))
    ensures Agree(root, turns)
  {
    forall a, b | LooksUp(root, a) && LooksUp(root, b) && KeyOf(a) == KeyOf(b) && a.st.endgameTurns == turns
      ensures CanWin(a, false) == CanWin(b, false)
    {
      if turns == -1 {
        KeyBeforeLastRound(root, a, b);
        AlikeEqual(a, b);
      } else if turns == 1 {
        OneTurnWins(a);
        OneTurnWins(b);
      } else {
        assert turns >= 2;
        KeyEarlyInLastRound(root, a, b);
        AlikeEqual(a, b);
      }
    }
  }

  /** At most three players, and with three every card in hand identified: the key is always adequate. */
  lemma SmallTablesAgree(root: Pos)
    requires Sane(root) && root.st.NumPlayers() <= 3 && (root.st.NumPlayers() == 3 ==> Identified(root.st))
    ensures KeysAgree(root)
  {
    forall turns: int
      ensures Agree(root, turns)
    {
      KeysAgreeAt(root, turns);
    }
  }

  // ----- The moves that are tried -----

  /** `get_playables`, without the order in which they are tried. */
  function GetPlayables(st: State, hand: seq<Order>): (r: seq<Order>)
    requires st.WellFormed()
    ensures forall o :: o in r <==> o in hand && PlayableCard(st, o)
  {
    if hand == [] then []
    else (if PlayableCard(st, hand[0]) then [hand[0]] else []) + GetPlayables(st, hand[1..])
  }

  /** Turns that are left at most. */
  function Fuel(pos: Pos): int {
    if pos.st.endgameTurns == -1 then 10 * pos.st.cardsLeft + pos.st.clueTokens + pos.st.NumPlayers() + 1
    else pos.st.endgameTurns
  }

  lemma FuelDrops(pos: Pos, s: Step, any: bool)
    requires Sane(pos) && StepLegal(pos, s, any)
    ensures 0 <= Fuel(After(pos, s, any)) < Fuel(pos)
  {
  }

  /** The move followed by the draw is legal, and leads to a position that can be won. */
  ghost predicate DrawWins(pos: Pos, m: Move, draw: Option<Id>) {
    StepLegal(pos, Step(m, draw), true) && CanWin(After(pos, Step(m, draw), true), false)
  }

  ghost predicate WinsWith(pos: Pos, m: Move) {
    exists draw :: DrawWins(pos, m, draw)
  }

  /** The draws after the move from which the game can be won, in the order of the list. */
  ghost function WinningDraws(pos: Pos, m: Move, k: nat): seq<Id>
    requires k <= |pos.remaining|
  {
    if k == 0 then []
    else WinningDraws(pos, m, k - 1) + if DrawWins(pos, m, Some(pos.remaining[k - 1].id)) then [pos.remaining[k - 1].id] else []
  }

  lemma WinningDrawsStart(pos: Pos, m: Move)
    ensures WinningDraws(pos, m, 0) == []
  {
  }

  lemma WinningDrawsNext(pos: Pos, m: Move, k: nat)
    requires k < |pos.remaining|
    ensures WinningDraws(pos, m, k + 1)
            == WinningDraws(pos, m, k) + if DrawWins(pos, m, Some(pos.remaining[k].id)) then [pos.remaining[k].id] else []
  {
  }

  lemma StepIsLegal(root: Pos, pos: Pos, m: Move, draw: Option<Id>)
    requires From(root, pos) && !pos.st.Ended() && MoveLegal(pos, m, true)
    requires if m.AnyClue? || pos.st.cardsLeft == 0 then draw.None? else exists r :: r in pos.remaining && draw == Some(r.id)
    ensures StepLegal(pos, Step(m, draw), true)
  {
  }

  lemma {:induction false} WinningDrawsMember(pos: Pos, m: Move, k: nat, id: Id)
    requires k <= |pos.remaining|
    ensures id in WinningDraws(pos, m, k) <==>
              DrawWins(pos, m, Some(id)) && exists i :: 0 <= i < k && pos.remaining[i].id == id
  {
    hide DrawWins;
    if k > 0 {
      WinningDrawsMember(pos, m, k - 1, id);
    }
  }

  /** A list of winnable draws is nonempty exactly when some draw wins. */
  lemma DrawsDecide(pos: Pos, m: Move)
    requires Shaped(pos) && !m.AnyClue? && pos.st.cardsLeft > 0
    ensures WinsWith(pos, m) <==> WinningDraws(pos, m, |pos.remaining|) != []
  {
    var ids := WinningDraws(pos, m, |pos.remaining|);
    if WinsWith(pos, m) {
      var draw :| DrawWins(pos, m, draw);
      var r :| r in pos.remaining && r.id == draw.value;
      WinningDrawsMember(pos, m, |pos.remaining|, draw.value);
    }
    if ids != [] {
      WinningDrawsMember(pos, m, |pos.remaining|, ids[0]);
      assert ids[0] in ids;
    }
  }

  /** Without a draw there is one continuation. */
  lemma NoDrawDecides(pos: Pos, m: Move)
    requires m.AnyClue? || pos.st.cardsLeft == 0
    ensures WinsWith(pos, m) <==> DrawWins(pos, m, None)
  {
  }

  /** The winnability of a position in terms of the moves the search tries. */
  lemma MovesDecide(pos: Pos, moves: seq<Move>)
    requires Sane(pos) && !Won(pos.st) && !pos.st.Ended()
    requires forall m :: m in moves <==> MoveLegal(pos, m, false)
    ensures CanWin(pos, false) <==> exists m :: m in moves && WinsWith(pos, m)
  {
    CanWinUnfold(pos, false);
    if CanWin(pos, false) {
      var s :| StepLegal(pos, s, false) && CanWin(After(pos, s, false), false);
      assert s == Step(s.move, s.draw) && StepLegal(pos, s, true) && After(pos, s, true) == After(pos, s, false);
      assert s.move in moves && DrawWins(pos, s.move, s.draw);
    }
    if m :| m in moves && WinsWith(pos, m) {
      var draw :| DrawWins(pos, m, draw);
      assert StepLegal(pos, Step(m, draw), false) && After(pos, Step(m, draw), false) == After(pos, Step(m, draw), true);
    }
  }

  lemma ScoreBelow(pos: Pos)
    requires Sane(pos)
    ensures pos.st.Score() <= pos.st.MaxScore()
  {
    SumMono(pos.st.playStacks, pos.st.maxRanks);
  }

  lemma LookedUp(root: Pos, pos: Pos)
    requires LooksUp(root, pos)
    ensures From(root, pos) && Sane(pos) && Shaped(pos) && !Won(pos.st) && !pos.st.Ended() && !Unwinnable(pos.st, pos.turn)
  {
  }

  lemma FromShaped(root: Pos, pos: Pos)
    requires From(root, pos)
    ensures Shaped(pos)
  {
  }

  lemma AllMovesAllowed(pos: Pos, moves: seq<Move>)
    requires Shaped(pos) && forall m :: m in moves <==> MoveLegal(pos, m, false)
    ensures forall m | m in moves :: MoveLegal(pos, m, true)
  {
  }

  // ----- Which verdicts can be relied on -----

  /** If the last round is cached, keys must have one verdict at all numbers of turns that are still to come. */
  ghost predicate Later(root: Pos, late: bool, turns: int) {
    late ==> forall t: int | t >= 0 && (turns == -1 || t < turns) :: Agree(root, t)
  }

  /** Verdicts at so many turns are right, whatever position they were first computed for. */
  ghost predicate Reliable(root: Pos, late: bool, turns: int) {
    Later(root, late, turns) && Agree(root, turns)
  }

  lemma LaterReliable(root: Pos, late: bool, pos: Pos, s: Step)
    requires From(root, pos) && StepLegal(pos, s, true) && Later(root, late, pos.st.endgameTurns)
    ensures Later(root, late, After(pos, s, true).st.endgameTurns)
    ensures late || After(pos, s, true).st.endgameTurns == -1 ==> Agree(root, After(pos, s, true).st.endgameTurns)
  {
    KeysAgreeAt(root, -1);
    hide Agree, From;
    ClockAfter(pos, s, true);
  }

  lemma SameVerdict(root: Pos, late: bool, a: Pos, b: Pos)
    requires LooksUp(root, a) && LooksUp(root, b) && KeyOf(a) == KeyOf(b) && Reliable(root, late, b.st.endgameTurns)
    ensures Later(root, late, a.st.endgameTurns) && CanWin(a, false) == CanWin(b, false)
  {
    assert KeyOf(a).endgameTurns == KeyOf(b).endgameTurns;
    hide CanWin, LooksUp, Later, KeyOf;
  }

  // ----- The search -----

  class Search {
    ghost const root: Pos
    const late: bool                     // whether the last round is cached; the source caches everything
    var cache: map<Key, bool>

    predicate Caches(pos: Pos) { late || pos.st.endgameTurns == -1 }

    /** Every verdict that can be relied on is right for every position that would look it up. */
    ghost predicate CacheOk()
      reads this
    {
      forall pos | LooksUp(root, pos) && KeyOf(pos) in cache && Reliable(root, late, pos.st.endgameTurns) ::
        cache[KeyOf(pos)] == CanWin(pos, false)
    }

    /** `simpler_cache.clear()` */
    constructor (start: Pos, late: bool)
      ensures root == start && this.late == late && cache == map[] && CacheOk()
    {
      root := start;
      this.late := late;
      cache := map[];
    }

    /** `winnable_simpler`: exact if all verdicts that it may look up can be relied on. A position that is looked up
        is remembered, and whatever is remembered is returned. */
    method WinnableSimpler(pos: Pos) returns (winnable: bool)
      requires From(root, pos) && CacheOk()
      modifies this
      ensures CacheOk()
      ensures (Later(root, late, pos.st.endgameTurns) && (Caches(pos) && KeyOf(pos) in old(cache) ==> Agree(root, pos.st.endgameTurns)))
              ==> (winnable <==> CanWin(pos, false))
      ensures LooksUp(root, pos) && Caches(pos) ==> KeyOf(pos) in cache && cache[KeyOf(pos)] == winnable
      ensures LooksUp(root, pos) && Caches(pos) && KeyOf(pos) in old(cache) ==> winnable == old(cache)[KeyOf(pos)]
      decreases Fuel(pos), 4
    {
      var st := pos.st;
      if st.Score() == st.MaxScore() {
        CanWinUnfold(pos, false);
        return true;
      }
      if Unwinnable(st, pos.turn) {
        ScoreBelow(pos);
        PruningIsSound(pos, false);
        return false;
      }
      var key := KeyOf(pos);
      assert LooksUp(root, pos);
      if Caches(pos) && key in cache {
        return cache[key];
      }
      winnable := AnyMoveWins(pos);
      if Caches(pos) {
        Remember(pos, winnable);
      }
    }

    /** `simpler_cache.set(hash, winnable)` */
    method Remember(pos: Pos, winnable: bool)
      requires LooksUp(root, pos) && CacheOk() && (Later(root, late, pos.st.endgameTurns) ==> (winnable <==> CanWin(pos, false)))
      modifies this
      ensures CacheOk() && cache == old(cache)[KeyOf(pos) := winnable]
    {
      hide CanWin, LooksUp, Later, Agree, Reliable, KeyOf, From;
      cache := cache[KeyOf(pos) := winnable];
      forall p | LooksUp(root, p) && KeyOf(p) in cache && Reliable(root, late, p.st.endgameTurns)
        ensures cache[KeyOf(p)] == CanWin(p, false)
      {
        if KeyOf(p) == KeyOf(pos) { SameVerdict(root, late, pos, p); }
      }
    }

    /** `possible_actions.some(...)` */
    method AnyMoveWins(pos: Pos) returns (winnable: bool)
      requires LooksUp(root, pos) && CacheOk()
      modifies this
      ensures CacheOk() && (Later(root, late, pos.st.endgameTurns) ==> (winnable <==> CanWin(pos, false)))
      decreases Fuel(pos), 3
    {
      LookedUp(root, pos);
      var moves := PossibleMoves(pos);
      MovesDecide(pos, moves);
      AllMovesAllowed(pos, moves);
      hide *;
      winnable := TryAll(pos, moves);
    }

    /** The loop of `some`: it stops at the first move that wins. */
    method TryAll(pos: Pos, moves: seq<Move>) returns (winnable: bool)
      requires From(root, pos) && CacheOk() && !pos.st.Ended() && forall m | m in moves :: MoveLegal(pos, m, true)
      modifies this
      ensures CacheOk() && (Later(root, late, pos.st.endgameTurns) ==> (winnable <==> exists m :: m in moves && WinsWith(pos, m)))
      decreases Fuel(pos), 2
    {
      winnable := false;
      hide Later, From, CanWin, Unwinnable, MoveLegal, WinsWith, CacheOk;
      var i := 0;
      while i < |moves| && !winnable
        invariant 0 <= i <= |moves| && CacheOk()
        invariant Later(root, late, pos.st.endgameTurns) && !winnable ==> forall j | 0 <= j < i :: !WinsWith(pos, moves[j])
        invariant Later(root, late, pos.st.endgameTurns) && winnable ==> exists m :: m in moves && WinsWith(pos, m)
      {
        assert moves[i] in moves;
        var won, draws := WinnableIf(pos, moves[i]);
        winnable := won;
        i := i + 1;
      }
    }

    /** The moves that are tried: every play, a clue, and the first card that is trash or unknown. */
    method PossibleMoves(pos: Pos) returns (moves: seq<Move>)
      requires Shaped(pos) && !Unwinnable(pos.st, pos.turn)
      ensures forall m :: m in moves <==> MoveLegal(pos, m, false)
    {
      var playables := GetPlayables(pos.st, Hand(pos));
      moves := [];
      for i := 0 to |playables|
        invariant forall m :: m in moves <==> m.PlayCard? && m.order in playables[..i]
      {
        moves := moves + [PlayCard(playables[i])];
      }
      assert playables[..|playables|] == playables;
      hide Unwinnable;
      if pos.st.clueTokens > 0 {
        moves := moves + [AnyClue];
      }
      assert forall m :: m in moves <==> (m.PlayCard? && m.order in playables) || (m.AnyClue? && pos.st.clueTokens > 0);
      var discardable := FirstDiscardable(pos.st, Hand(pos));
      if pos.st.Pace() >= 0 && discardable.Some? {
        moves := moves + [DiscardCard(discardable.value)];
      }
    }

    /** `winnable_if` */
    method WinnableIf(pos: Pos, m: Move) returns (winnable: bool, winnableDraws: seq<Id>)
      requires From(root, pos) && CacheOk() && !pos.st.Ended() && MoveLegal(pos, m, true)
      modifies this
      ensures CacheOk() && (Later(root, late, pos.st.endgameTurns) ==> (winnable <==> WinsWith(pos, m)))
      ensures Later(root, late, pos.st.endgameTurns) ==>
                winnableDraws == if m.AnyClue? || pos.st.cardsLeft == 0 then [] else WinningDraws(pos, m, |pos.remaining|)
      decreases Fuel(pos), 1
    {
      FromShaped(root, pos);
      hide Later, From, CanWin, MoveLegal, WinsWith, CacheOk, DrawWins, WinningDraws;
      winnableDraws := [];
      if m.AnyClue? || pos.st.cardsLeft == 0 {
        StepIsLegal(root, pos, m, None);
        winnable := Continue(pos, m, None);
        NoDrawDecides(pos, m);
      } else {
        winnableDraws := TryDraws(pos, m);
        DrawsDecide(pos, m);
        winnable := |winnableDraws| > 0;
      }
    }

    /** The loop over the cards that may be drawn. */
    method TryDraws(pos: Pos, m: Move) returns (winnableDraws: seq<Id>)
      requires From(root, pos) && CacheOk() && !pos.st.Ended() && MoveLegal(pos, m, true)
      requires !m.AnyClue? && pos.st.cardsLeft > 0
      modifies this
      ensures CacheOk() && (Later(root, late, pos.st.endgameTurns) ==> winnableDraws == WinningDraws(pos, m, |pos.remaining|))
      decreases Fuel(pos), 0
    {
      WinningDrawsStart(pos, m);
      hide Later, From, CanWin, MoveLegal, WinsWith, CacheOk, DrawWins, WinningDraws;
      winnableDraws := [];
      for i := 0 to |pos.remaining|
        invariant CacheOk() && (Later(root, late, pos.st.endgameTurns) ==> winnableDraws == WinningDraws(pos, m, i))
      {
        var id := pos.remaining[i].id;
        assert pos.remaining[i] in pos.remaining;
        StepIsLegal(root, pos, m, Some(id));
        WinningDrawsNext(pos, m, i);
        var won := Continue(pos, m, Some(id));
        if won {
          winnableDraws := winnableDraws + [id];
        }
      }
    }

    /** Advances the state by the move and the draw, and searches on with the next player. */
    method Continue(pos: Pos, m: Move, draw: Option<Id>) returns (winnable: bool)
      requires From(root, pos) && CacheOk() && StepLegal(pos, Step(m, draw), true)
      modifies this
      ensures CacheOk() && (Later(root, late, pos.st.endgameTurns) ==> (winnable <==> DrawWins(pos, m, draw)))
      decreases Fuel(pos), -1
    {
      LegalCanAdvance(pos, Step(m, draw), true);
      var newState := AdvanceState(pos.st, pos.turn, m, draw);
      var newRemaining := if draw.Some? then RemoveRemaining(pos.remaining, draw.value) else pos.remaining;
      FromAfter(root, pos, Step(m, draw), true);
      FuelDrops(pos, Step(m, draw), true);
      LaterIf(root, late, pos, Step(m, draw));
      winnable := WinnableSimpler(Pos(newState, pos.st.NextPlayer(pos.turn), newRemaining));
    }
  }

  lemma LaterIf(root: Pos, late: bool, pos: Pos, s: Step)
    requires From(root, pos) && StepLegal(pos, s, true)
    ensures Later(root, late, pos.st.endgameTurns) ==>
              var turns := After(pos, s, true).st.endgameTurns; Later(root, late, turns) && (late || turns == -1 ==> Agree(root, turns))
  {
    if Later(root, late, pos.st.endgameTurns) { LaterReliable(root, late, pos, s); }
  }

  /** The source's search answers exactly whether any run of the full game reaches the maximum score, from every
      position of a small table and from the last two turns of any. */
  method IsWinnable(pos: Pos) returns (winnable: bool)
    requires Sane(pos)
    requires pos.st.NumPlayers() <= 2 || (pos.st.NumPlayers() == 3 && Identified(pos.st)) || 0 <= pos.st.endgameTurns <= 2
    ensures winnable <==> CanWin(pos, true)
  {
    forall turns: int | turns >= 0 && (pos.st.endgameTurns == -1 || turns < pos.st.endgameTurns)
      ensures Agree(pos, turns)
    {
      KeysAgreeAt(pos, turns);
    }
    FromItself(pos);
    FirstDiscardSuffices(pos);
    var search := new Search(pos, true);
    winnable := search.WinnableSimpler(pos);
  }

  /** With verdicts of the last round not cached, the same holds from every position of every table. */
  method IsWinnableUncached(pos: Pos) returns (winnable: bool)
    requires Sane(pos)
    ensures winnable <==> CanWin(pos, true)
  {
    FromItself(pos);
    FirstDiscardSuffices(pos);
    var search := new Search(pos, false);
    winnable := search.WinnableSimpler(pos);
  }

  /** `optimize` skips the draws that the search does not list: if a positive win rate is only ever found where the
      position after the draw can be won, no action's rate changes. */
  lemma UnlistedDrawsAreLost(pos: Pos, m: Move, c: EndgameOdds.Choice, games: seq<EndgameOdds.HypoGame>, os: seq<EndgameOdds.Outcome>)
    requires Shaped(pos) && |games| == |os| && EndgameOdds.GamesOk(games) && EndgameOdds.OutcomesOk(os)
    requires c.winnableDraws == WinningDraws(pos, m, |pos.remaining|)
    requires forall i | 0 <= i < |games| && games[i].drew.Some? ::
               os[i].lost || os[i].winrate.numerator <= 0 || DrawWins(pos, m, games[i].drew)
    requires forall i | 0 <= i < |games| && games[i].drew.Some? :: Drawable(pos.remaining, games[i].drew.value)
    ensures EndgameOdds.WinRate(c, games, os, |games|) == EndgameOdds.FullRate(games, os, |games|)
  {
    hide WinningDraws, DrawWins;
    forall i | 0 <= i < |games| && games[i].drew.Some? && games[i].drew.value !in c.winnableDraws && !os[i].lost
      ensures os[i] in os && os[i].winrate.Value() == 0.0
    {
      var id := games[i].drew.value;
      WinningDrawsMember(pos, m, |pos.remaining|, id);
      var r :| r in pos.remaining && r.id == id;
      var k :| 0 <= k < |pos.remaining| && pos.remaining[k] == r;
      assert os[i] in os;
      NoRate(os[i]);
    }
    EndgameOdds.SkippingIsFree(c, games, os, |games|);
  }

  lemma NoRate(o: EndgameOdds.Outcome)
    requires o.winrate.Ok() && o.winrate.numerator <= 0 && o.winrate.Value() >= 0.0
    ensures o.winrate.Value() == 0.0
  {
    var (n, d) := (o.winrate.numerator as real, o.winrate.denominator as real);
    assert n / d * d == n && n / d * d >= 0.0;
    assert n == 0.0;
  }
}
