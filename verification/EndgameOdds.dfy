// The probability side of src/conventions/shared/endgame.js: arrangements of the own unknown cards, draws,
// and `optimize`, the exact maximisation with a cut-off.
module EndgameOdds {
  import opened Cards
  import opened EndgameSteps
  import opened EndgameGame
  import opened Fractions

  // ----- optimize -----

  /** A hypothetical game: how likely it is, and which card was drawn. */
  datatype HypoGame = HypoGame(prob: Fraction, drew: Option<Id>)

  /** An action, whether it is a clue, and the draws after which it can still win. */
  datatype Choice = Choice(clue: bool, winnableDraws: seq<Id>)

  /** What playing an action in a game leads to: a critical card may be lost; otherwise the best win rate there. */
  datatype Outcome = Outcome(lost: bool, winrate: Fraction)

  predicate Skipped(c: Choice, g: HypoGame, o: Outcome) {
    (g.drew.Some? && g.drew.value !in c.winnableDraws) || o.lost
  }

  /** Probability-weighted win rate of the first k games. */
  ghost function WinRate(c: Choice, games: seq<HypoGame>, os: seq<Outcome>, k: nat): real
    requires k <= |games| == |os| && GamesOk(games) && OutcomesOk(os)
  {
    if k == 0 then 0.0
    else WinRate(c, games, os, k - 1)
         + if Skipped(c, games[k - 1], os[k - 1]) then 0.0 else games[k - 1].prob.Value() * os[k - 1].winrate.Value()
  }

  /** The same rate if no draw were skipped. */
  ghost function FullRate(games: seq<HypoGame>, os: seq<Outcome>, k: nat): real
    requires k <= |games| == |os| && GamesOk(games) && OutcomesOk(os)
  {
    if k == 0 then 0.0
    else FullRate(games, os, k - 1) + if os[k - 1].lost then 0.0 else games[k - 1].prob.Value() * os[k - 1].winrate.Value()
  }

  /** Skipping the draws after which nothing can be won changes no rate. */
  lemma {:induction false} SkippingIsFree(c: Choice, games: seq<HypoGame>, os: seq<Outcome>, k: nat)
    requires k <= |games| == |os| && GamesOk(games) && OutcomesOk(os)
    requires forall i | 0 <= i < k && games[i].drew.Some? && games[i].drew.value !in c.winnableDraws && !os[i].lost ::
               os[i] in os && os[i].winrate.Value() == 0.0
    ensures WinRate(c, games, os, k) == FullRate(games, os, k)
  {
    if k > 0 {
      SkippingIsFree(c, games, os, k - 1);
      assert games[k - 1] in games && os[k - 1] in os;
      hide Fraction.Value;
    }
  }

  /** Probability of the games from k on. */
  ghost function Mass(games: seq<HypoGame>, k: nat): real
    requires k <= |games| && GamesOk(games)
    decreases |games| - k
  {
    if k == |games| then 0.0 else games[k].prob.Value() + Mass(games, k + 1)
  }

  ghost predicate GamesOk(games: seq<HypoGame>) {
    forall g | g in games :: g.prob.Ok() && g.prob.Value() >= 0.0
  }

  ghost predicate OutcomesOk(os: seq<Outcome>) {
    forall o | o in os :: o.winrate.Ok() && 0.0 <= o.winrate.Value() <= 1.0
  }

  lemma WeightBounds(p: real, r: real)
    requires p >= 0.0 && 0.0 <= r <= 1.0
    ensures 0.0 <= p * r <= p
  {
  }

  /** The rest of the games can add at most their probability. */
  lemma {:induction false} RateBound(c: Choice, games: seq<HypoGame>, os: seq<Outcome>, k: nat)
    requires k <= |games| == |os| && GamesOk(games) && OutcomesOk(os)
    ensures WinRate(c, games, os, k) <= WinRate(c, games, os, |games|) <= WinRate(c, games, os, k) + Mass(games, k)
    decreases |games| - k
  {
    if k < |games| {
      assert games[k] in games && os[k] in os;
      RateBound(c, games, os, k + 1);
      var (p, r) := (games[k].prob.Value(), os[k].winrate.Value());
      WeightBounds(p, r);
      assert WinRate(c, games, os, k + 1) == WinRate(c, games, os, k) + if Skipped(c, games[k], os[k]) then 0.0 else p * r;
      assert Mass(games, k) == p + Mass(games, k + 1);
    }
  }

  /** Every win rate is a probability. */
  lemma RateInUnit(c: Choice, games: seq<HypoGame>, os: seq<Outcome>)
    requires |games| == |os| && GamesOk(games) && OutcomesOk(os) && Mass(games, 0) <= 1.0
    ensures 0.0 <= WinRate(c, games, os, |games|) <= 1.0
  {
    RateBound(c, games, os, 0);
  }

  lemma ValueOfConstants()
    ensures ZERO.Value() == 0.0 && ONE.Value() == 1.0
  {
  }

  /** `all_winrate = all_winrate.plus(prob.multiply(winrate)); rem_prob = rem_prob.subtract(prob)` */
  method AddGame(all: Fraction, rem: Fraction, prob: Fraction, winrate: Fraction) returns (all': Fraction, rem': Fraction)
    requires all.Ok() && rem.Ok() && prob.Ok() && winrate.Ok()
    ensures all'.Ok() && rem'.Ok()
    ensures all'.Value() == all.Value() + prob.Value() * winrate.Value() && rem'.Value() == rem.Value() - prob.Value()
  {
    hide Plus, Subtract, Multiply, Fraction.Value;
    MultiplyValue(prob, winrate);
    PlusValue(all, Multiply(prob, winrate));
    SubtractValue(rem, prob);
    all' := Plus(all, Multiply(prob, winrate));
    rem' := Subtract(rem, prob);
  }

  /** `all_winrate.plus(rem_prob).lessThan(best_winrate)` */
  method Hopeless(all: Fraction, rem: Fraction, best: Fraction) returns (b: bool)
    requires all.Ok() && rem.Ok() && best.Ok()
    ensures b <==> all.Value() + rem.Value() < best.Value()
  {
    hide Plus, LessThan, Fraction.Value;
    PlusValue(all, rem);
    OrderAgrees(Plus(all, rem), best);
    b := LessThan(Plus(all, rem), best);
  }

  lemma RateNext(c: Choice, games: seq<HypoGame>, os: seq<Outcome>, k: nat)
    requires k < |games| == |os| && GamesOk(games) && OutcomesOk(os)
    ensures games[k].prob.Ok() && games[k].prob.Value() >= 0.0 && os[k].winrate.Ok()
    ensures WinRate(c, games, os, k + 1) == WinRate(c, games, os, k)
              + if Skipped(c, games[k], os[k]) then 0.0 else games[k].prob.Value() * os[k].winrate.Value()
    ensures Mass(games, k) == games[k].prob.Value() + Mass(games, k + 1)
    ensures WinRate(c, games, os, k + 1) >= WinRate(c, games, os, k)
  {
    assert games[k] in games && os[k] in os;
    WeightBounds(games[k].prob.Value(), os[k].winrate.Value());
  }

  /** The inner loop for one action. The sum is exact unless the loop stops early, and then the action is worse
      than the best one so far, although skipped games are never taken off the remaining probability. */
  method ActionRate(c: Choice, games: seq<HypoGame>, os: seq<Outcome>, best: Fraction) returns (all: Fraction)
    requires |games| == |os| && GamesOk(games) && OutcomesOk(os) && Mass(games, 0) <= 1.0 && best.Ok()
    ensures all.Ok() && 0.0 <= all.Value() <= WinRate(c, games, os, |games|)
    ensures all.Value() == WinRate(c, games, os, |games|) || WinRate(c, games, os, |games|) < best.Value()
  {
    all := ZERO;
    var rem := ONE;
    ValueOfConstants();
    assert WinRate(c, games, os, 0) == 0.0;
    hide Fraction.Value, OutcomesOk, GamesOk, WinRate, Mass, Skipped;
    for i := 0 to |games|
      invariant all.Ok() && rem.Ok()
      invariant all.Value() == WinRate(c, games, os, i) && rem.Value() >= Mass(games, i) && all.Value() >= 0.0
    {
      RateNext(c, games, os, i);
      RateBound(c, games, os, i + 1);
      if Skipped(c, games[i], os[i]) {
        continue;
      }
      all, rem := AddGame(all, rem, games[i].prob, os[i].winrate);
      var hopeless := Hopeless(all, rem, best);
      if hopeless {
        return;
      }
    }
  }

  /** The games an action is judged by. */
  function GamesOf(c: Choice, undrawn: seq<HypoGame>, drawn: seq<HypoGame>): seq<HypoGame> {
    if c.clue then undrawn else drawn
  }

  ghost predicate Matched(actions: seq<Choice>, undrawn: seq<HypoGame>, drawn: seq<HypoGame>, outcomes: seq<seq<Outcome>>) {
    && |outcomes| == |actions|
    && GamesOk(undrawn) && GamesOk(drawn) && Mass(undrawn, 0) <= 1.0 && Mass(drawn, 0) <= 1.0
    && (forall a | 0 <= a < |actions| :: OutcomesOk(outcomes[a]) && |outcomes[a]| == |GamesOf(actions[a], undrawn, drawn)|)
  }

  /** The exact win rate of action number a. */
  ghost function RateOf(actions: seq<Choice>, undrawn: seq<HypoGame>, drawn: seq<HypoGame>, outcomes: seq<seq<Outcome>>, a: nat): real
    requires Matched(actions, undrawn, drawn, outcomes) && a < |actions|
  {
    var games := GamesOf(actions[a], undrawn, drawn);
    WinRate(actions[a], games, outcomes[a], |games|)
  }

  /** A clue is judged by the game as it is: its rate is the best win rate there. */
  lemma ClueRate(actions: seq<Choice>, undrawn: seq<HypoGame>, drawn: seq<HypoGame>, outcomes: seq<seq<Outcome>>, a: nat)
    requires Matched(actions, undrawn, drawn, outcomes) && a < |actions| && actions[a].clue && undrawn == [HypoGame(ONE, None)]
    ensures |outcomes[a]| == 1
    ensures RateOf(actions, undrawn, drawn, outcomes, a) == if outcomes[a][0].lost then 0.0 else outcomes[a][0].winrate.Value()
  {
    ValueOfConstants();
    assert WinRate(actions[a], undrawn, outcomes[a], 0) == 0.0;
    assert outcomes[a][0] in outcomes[a];
  }

  /** Any other action is judged by all cards that may be drawn after it, each weighted by its probability. */
  lemma MoveRate(actions: seq<Choice>, undrawn: seq<HypoGame>, drawn: seq<HypoGame>, outcomes: seq<seq<Outcome>>, a: nat)
    requires Matched(actions, undrawn, drawn, outcomes) && a < |actions| && !actions[a].clue
    requires forall i | 0 <= i < |drawn| && drawn[i].drew.Some? && drawn[i].drew.value !in actions[a].winnableDraws ::
               outcomes[a][i].lost || outcomes[a][i].winrate.Value() == 0.0
    ensures |outcomes[a]| == |drawn| && RateOf(actions, undrawn, drawn, outcomes, a) == FullRate(drawn, outcomes[a], |drawn|)
  {
    assert forall i | 0 <= i < |drawn| :: outcomes[a][i] in outcomes[a];
    SkippingIsFree(actions[a], drawn, outcomes[a], |drawn|);
  }

  /** best is the maximum of 0 and the rates of the first k actions, and chosen are the actions that attain it, in order. */
  ghost predicate BestOf(actions: seq<Choice>, undrawn: seq<HypoGame>, drawn: seq<HypoGame>, outcomes: seq<seq<Outcome>>, k: nat,
                         best: real, chosen: seq<nat>)
    requires Matched(actions, undrawn, drawn, outcomes) && k <= |actions|
  {
    && (forall a | 0 <= a < k :: RateOf(actions, undrawn, drawn, outcomes, a) <= best)
    && (forall a: nat :: a in chosen <==> a < k && RateOf(actions, undrawn, drawn, outcomes, a) == best)
    && (forall i, j | 0 <= i < j < |chosen| :: chosen[i] < chosen[j])
    && (chosen == [] ==> k == 0 && best == 0.0)
  }

  /** `optimize`: with a sure win the first such action alone, otherwise the maximum and exactly the actions that attain it. */
  method Optimize(actions: seq<Choice>, undrawn: seq<HypoGame>, drawn: seq<HypoGame>, outcomes: seq<seq<Outcome>>)
      returns (bestWinrate: Fraction, bestActions: seq<nat>)
    requires Matched(actions, undrawn, drawn, outcomes)
    ensures bestWinrate.Ok() && 0.0 <= bestWinrate.Value() <= 1.0
    ensures forall a | 0 <= a < |actions| :: RateOf(actions, undrawn, drawn, outcomes, a) <= bestWinrate.Value()
    ensures if bestWinrate.Value() == 1.0 then
              |bestActions| == 1 && bestActions[0] < |actions| && RateOf(actions, undrawn, drawn, outcomes, bestActions[0]) == 1.0
              && forall a | 0 <= a < bestActions[0] :: RateOf(actions, undrawn, drawn, outcomes, a) < 1.0
            else BestOf(actions, undrawn, drawn, outcomes, |actions|, bestWinrate.Value(), bestActions)
  {
    bestWinrate, bestActions := ZERO, [];
    ValueOfConstants();
    assert BestOf(actions, undrawn, drawn, outcomes, 0, bestWinrate.Value(), bestActions);
    hide Equals, LessThan, Fraction.Value, WinRate, Mass, GamesOk, OutcomesOk;
    var a := 0;
    while a < |actions|
      invariant 0 <= a <= |actions| && bestWinrate.Ok() && 0.0 <= bestWinrate.Value() < 1.0
      invariant BestOf(actions, undrawn, drawn, outcomes, a, bestWinrate.Value(), bestActions)
    {
      var games := GamesOf(actions[a], undrawn, drawn);
      var all := ActionRate(actions[a], games, outcomes[a], bestWinrate);
      AllInUnit(actions, undrawn, drawn, outcomes, |actions|);
      OrderAgrees(all, ONE);
      OrderAgrees(bestWinrate, all);
      OrderAgrees(all, bestWinrate);
      BestNext(actions, undrawn, drawn, outcomes, a, bestWinrate.Value(), bestActions, all.Value());
      if Equals(all, ONE) {
        bestWinrate, bestActions := all, [a];
        return;
      }
      if LessThan(bestWinrate, all) {
        bestWinrate := all;
        bestActions := [a];
      } else if Equals(all, bestWinrate) {
        bestActions := bestActions + [a];
      }
      a := a + 1;
    }
  }

  /** Judging one more action, whose rate is r: it replaces the list, joins it or leaves it. */
  lemma BestNext(actions: seq<Choice>, undrawn: seq<HypoGame>, drawn: seq<HypoGame>, outcomes: seq<seq<Outcome>>, k: nat,
                 best: real, chosen: seq<nat>, all: real)
    requires Matched(actions, undrawn, drawn, outcomes) && k < |actions| && BestOf(actions, undrawn, drawn, outcomes, k, best, chosen)
    requires var r := RateOf(actions, undrawn, drawn, outcomes, k); 0.0 <= r && all <= r && (all == r || r < best)
    ensures best < all ==> BestOf(actions, undrawn, drawn, outcomes, k + 1, all, [k])
    ensures best == all ==> BestOf(actions, undrawn, drawn, outcomes, k + 1, best, chosen + [k])
    ensures best > all ==> BestOf(actions, undrawn, drawn, outcomes, k + 1, best, chosen)
  {
    hide RateOf, Matched;
    assert forall i | 0 <= i < |chosen| :: chosen[i] in chosen;
    assert chosen == [] ==> best == 0.0;
  }

  lemma AllInUnit(actions: seq<Choice>, undrawn: seq<HypoGame>, drawn: seq<HypoGame>, outcomes: seq<seq<Outcome>>, k: nat)
    requires Matched(actions, undrawn, drawn, outcomes) && k <= |actions|
    ensures forall a | 0 <= a < k :: 0.0 <= RateOf(actions, undrawn, drawn, outcomes, a) <= 1.0
  {
    forall a | 0 <= a < k
      ensures 0.0 <= RateOf(actions, undrawn, drawn, outcomes, a) <= 1.0
    {
      RateInUnit(actions[a], GamesOf(actions[a], undrawn, drawn), outcomes[a]);
    }
  }
}
