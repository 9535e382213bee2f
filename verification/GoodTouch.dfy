// The loops of `good_touch_elim` in src/basics/player-elim.js. Which eliminations the conventions allow is left open;
// whatever they decide, the loops end, although a card that lost all inferences gets new ones back, and what they allow
// in the end has been done.
module GoodTouch {
  import opened Cards
  import opened Beliefs

  /** A card whose inferences may be eliminated; cm marks chop moved cards, which are never reset. */
  datatype Candidate = Candidate(order: Order, cm: bool)

  /** Orders that share the same inferences. */
  datatype Cross = Cross(ids: set<Id>, orders: seq<Order>)

  datatype Decision = Leave | GiveUp(marked: bool) | Eliminate

  /** What the conventions decide. The number tells how often the maps of known cards have been refilled. */
  datatype Rules = Rules(
    decide: (nat, Id, Candidate, seq<Card>) -> Decision,   // what becomes of an inference of a candidate
    trash: Id -> bool,                                     // state.isBasicTrash
    shares: (nat, Order, seq<Card>) -> bool,               // addToMaps puts the card into cross_map, if it has few inferences
    pairs: (Order, Order, seq<Card>) -> bool)              // the first card may lose what the second is

  /** One more than the number of identities of six suits. */
  const RESET_WEIGHT := 31

  predicate Within(s: set<Id>, numSuits: nat) {
    forall id | id in s :: IsId(id, numSuits)
  }

  /** All identities on the card are of the variant. */
  predicate Bounded(c: Card, numSuits: nat) {
    && numSuits <= 6 && Within(c.possible, numSuits) && Within(c.inferred, numSuits)
    && (c.infoLock.Some? ==> Within(c.infoLock.value, numSuits)) && (c.oldInferred.Some? ==> Within(c.oldInferred.value, numSuits))
  }

  /** The inferences of a card, and a bonus as long as it may still be reset. */
  function Weight(c: Card): nat {
    |c.inferred| + if c.reset then 0 else RESET_WEIGHT
  }

  function Weights(thoughts: seq<Card>): seq<nat> {
    seq(|thoughts|, i requires 0 <= i < |thoughts| => Weight(thoughts[i]))
  }

  /** What every reported change makes smaller. */
  function Measure(thoughts: seq<Card>): nat {
    Sum(Weights(thoughts))
  }

  lemma MeasureUpdate(thoughts: seq<Card>, o: Order, c: Card)
    requires o < |thoughts|
    ensures Measure(thoughts[o := c]) == Measure(thoughts) - Weight(thoughts[o]) + Weight(c)
  {
    SumUpdate(Weights(thoughts), o, Weight(c));
    assert Weights(thoughts[o := c]) == Weights(thoughts)[o := Weight(c)];
  }

  lemma FewIds(s: set<Id>, numSuits: nat)
    requires Within(s, numSuits) && numSuits <= 6
    ensures |s| <= 30
  {
    forall id | id in s
      ensures id in FirstIds(numSuits * MAX_RANK)
    {
      assert id.suit * MAX_RANK + MAX_RANK <= numSuits * MAX_RANK;
      FirstIdsContains(numSuits * MAX_RANK, id);
    }
    FirstIdsBound(numSuits * MAX_RANK);
    SubsetCardinality(s, FirstIds(numSuits * MAX_RANK));
  }

  /** Resetting a card without inferences makes it lighter, however many it gets back. */
  lemma ResetLighter(c: Card, numSuits: nat)
    requires Bounded(c, numSuits) && !c.reset
    ensures Bounded(c.ResetInferences(), numSuits) && Weight(c.ResetInferences()) < RESET_WEIGHT <= Weight(c)
  {
    FewIds(c.ResetInferences().inferred, numSuits);
  }

  /** A reset leaves the card with inferences that are possible, unless it was finessed and its lock holds only in part;
      and with some inference, unless nothing is possible or the old inferences of a finessed card are all ruled out. */
  lemma ResetMeans(c: Card)
    ensures var (r, held) := (c.ResetInferences(), c.infoLock.Some? && c.infoLock.value * c.possible != {});
            && (r.inferred <= c.possible <==> !(c.status == Finessed && held && !(c.infoLock.value <= c.possible)))
            && (r.inferred == {} <==> if c.status == Finessed && !held && c.oldInferred.Some? then c.oldInferred.value * c.possible == {}
                                      else c.possible == {})
            && (held ==> r.inferred <= c.infoLock.value)
  {
    var held := c.infoLock.Some? && c.infoLock.value * c.possible != {};
    if held {
      var i :| i in c.infoLock.value * c.possible;
      assert i in c.possible && i in c.infoLock.value;
    } else if c.infoLock.Some? {
      assert c.infoLock.value * c.possible == {};
    }
  }

  /** Possibilities stay as they are, a reset is for good, and apart from it inferences only get fewer. */
  predicate Narrowed(a: seq<Card>, b: seq<Card>) {
    |a| == |b| && forall o | 0 <= o < |a| ::
      && a[o].possible == b[o].possible && (a[o].reset ==> b[o].reset)
      && (b[o].inferred <= a[o].inferred || (b[o].reset && !a[o].reset))
  }

  /** What becomes of a card that loses an inference; a chop moved one is not reset. */
  function Losing(c: Card, cm: bool, id: Id): Card {
    var d := c.(inferred := c.inferred - {id});
    if !cm && d.inferred == {} && !c.reset then d.ResetInferences() else d
  }

  /** The candidate may not lose this inference, or does not have it. */
  predicate Spared(rules: Rules, maps: nat, id: Id, c: Candidate, thoughts: seq<Card>) {
    c.order < |thoughts| && id in thoughts[c.order].inferred ==> rules.decide(maps, id, c, thoughts) != Eliminate
  }

  /** None of these candidates may lose one of these inferences. */
  ghost predicate AllSpared(rules: Rules, maps: nat, ids: set<Id>, candidates: seq<Candidate>, thoughts: seq<Card>) {
    forall id, c | id in ids && c in candidates :: Spared(rules, maps, id, c, thoughts)
  }

  /** No card of the entry may lose what another one is known to be. */
  ghost predicate PairsSpared(rules: Rules, e: Cross, known: seq<Option<Id>>, thoughts: seq<Card>) {
    |e.orders| == |e.ids| ==>
      forall i, j | 0 <= i < |e.orders| && 0 <= j < |e.orders| && i != j && e.orders[i] < |thoughts| && e.orders[j] < |known| ::
        known[e.orders[j]].Some? && known[e.orders[j]].value in thoughts[e.orders[i]].inferred ==> !rules.pairs(e.orders[i], e.orders[j], thoughts)
  }

  ghost predicate AllPairsSpared(rules: Rules, es: seq<Cross>, known: seq<Option<Id>>, thoughts: seq<Card>) {
    forall e | e in es :: PairsSpared(rules, e, known, thoughts)
  }

  /** The variables of the loop over the candidates: what the walk for one identity leaves. */
  datatype Walked = Walked(thoughts: seq<Card>, owned: set<Order>, candidates: seq<Candidate>, more: seq<Id>, changed: bool)

  /** The identity that becomes known by an elimination. It is missed if the card has been updated before, since the old
      card is then the very object that is updated. */
  function Pushed(rules: Rules, owned: set<Order>, card: Card, c: Candidate, id: Id): seq<Id>
    requires id in card.inferred
  {
    if !c.cm && |card.inferred| == 2 && c.order !in owned && !rules.trash(TheOne(card.inferred - {id})) then [TheOne(card.inferred - {id})] else []
  }

  /** The walk for one identity, from candidate number j on. Dropping a candidate skips the next one. */
  function WalkFrom(rules: Rules, maps: nat, id: Id, s: Walked, j: nat): Walked
    decreases |s.candidates| - j
  {
    if j >= |s.candidates| then s
    else
      var c := s.candidates[j];
      if c.order >= |s.thoughts| || id !in s.thoughts[c.order].inferred then WalkFrom(rules, maps, id, s, j + 1)
      else WalkFrom(rules, maps, id, WalkOne(rules, id, s, j, rules.decide(maps, id, c, s.thoughts)), j + 1)
  }

  /** The walk goes on from the next candidate. */
  lemma WalkStep(rules: Rules, maps: nat, id: Id, s: Walked, j: nat)
    requires j < |s.candidates| && s.candidates[j].order < |s.thoughts|
    ensures var c := s.candidates[j];
            var d := if id in s.thoughts[c.order].inferred then rules.decide(maps, id, c, s.thoughts) else Leave;
            WalkFrom(rules, maps, id, s, j) == WalkFrom(rules, maps, id, WalkOne(rules, id, s, j, d), j + 1)
  {
  }

  lemma WalkEnds(rules: Rules, maps: nat, id: Id, s: Walked, j: nat)
    requires j >= |s.candidates|
    ensures WalkFrom(rules, maps, id, s, j) == s
  {
  }

  /** What a decision about candidate number j does. */
  function WalkOne(rules: Rules, id: Id, s: Walked, j: nat, d: Decision): Walked
    requires j < |s.candidates| && s.candidates[j].order < |s.thoughts|
    requires d == Eliminate ==> id in s.thoughts[s.candidates[j].order].inferred
  {
    var c := s.candidates[j];
    match d
    case Leave => s
    case GiveUp(marked) =>
      s.(owned := if marked then s.owned + {c.order} else s.owned, candidates := s.candidates[..j] + s.candidates[j + 1..])
    case Eliminate =>
      s.(thoughts := s.thoughts[c.order := Losing(s.thoughts[c.order], c.cm, id)], owned := s.owned + {c.order},
         more := s.more + Pushed(rules, s.owned, s.thoughts[c.order], c, id), changed := true)
  }

  /** One turn of `basic_elim`. */
  datatype Turn = Turn(id: Id, from: Walked, to: Walked)

  function Restarted(s: Walked): Walked { s.(more := [], changed := false) }

  /** The turn is a walk that starts where the one before has ended. */
  ghost predicate TurnOk(rules: Rules, maps: nat, first: Walked, turns: seq<Turn>, k: nat)
    requires k < |turns|
  {
    && turns[k].to == WalkFrom(rules, maps, turns[k].id, turns[k].from, 0)
    && turns[k].from == if k == 0 then Restarted(first) else Restarted(turns[k - 1].to)
  }

  ghost predicate TurnsOk(rules: Rules, maps: nat, first: Walked, turns: seq<Turn>) {
    forall k | 0 <= k < |turns| :: TurnOk(rules, maps, first, turns, k)
  }

  ghost function Last(first: Walked, turns: seq<Turn>): Walked { if turns == [] then first else turns[|turns| - 1].to }

  ghost function Ids(turns: seq<Turn>): seq<Id> { if turns == [] then [] else Ids(turns[..|turns| - 1]) + [turns[|turns| - 1].id] }

  /** What the turns have made known, in order. */
  ghost function Queued(turns: seq<Turn>): seq<Id> { if turns == [] then [] else Queued(turns[..|turns| - 1]) + turns[|turns| - 1].to.more }

  /** The identities of the turns that changed something. */
  ghost function Used(turns: seq<Turn>): set<Id> { set t | t in turns && t.to.changed :: t.id }

  lemma TurnTaken(rules: Rules, maps: nat, first: Walked, turns: seq<Turn>, t: Turn)
    requires TurnsOk(rules, maps, first, turns) && t.from == Restarted(Last(first, turns)) && t.to == WalkFrom(rules, maps, t.id, t.from, 0)
    ensures TurnsOk(rules, maps, first, turns + [t]) && Last(first, turns + [t]) == t.to
    ensures Ids(turns + [t]) == Ids(turns) + [t.id] && Queued(turns + [t]) == Queued(turns) + t.to.more
    ensures Used(turns + [t]) == Used(turns) + if t.to.changed then {t.id} else {}
  {
    hide WalkFrom;
    var more := turns + [t];
    assert more[..|more| - 1] == turns && more[|more| - 1] == t;
    forall k | 0 <= k < |more|
      ensures TurnOk(rules, maps, first, more, k)
    {
      assert k > 0 ==> more[k - 1] == turns[k - 1];
      if k < |turns| { assert TurnOk(rules, maps, first, turns, k) && more[k] == turns[k]; }
    }
  }

  /** How far `basic_elim` has come: the turns taken, the list with what they made known, and the identities left. */
  ghost predicate Traced(rules: Rules, maps: nat, first: Walked, now: Walked, turns: seq<Turn>, listed: seq<Id>, current: seq<Id>, i: nat,
                         ids: set<Id>, left: set<Id>) {
    && TurnsOk(rules, maps, first, turns) && Restarted(Last(first, turns)) == Restarted(now)
    && current == listed + Queued(turns) && i <= |current| && Ids(turns) == current[..i] && left == ids - Used(turns)
  }

  lemma TracedFirst(rules: Rules, maps: nat, first: Walked, listed: seq<Id>, ids: set<Id>)
    ensures Traced(rules, maps, first, first, [], listed, listed, 0, ids, ids)
  {
  }

  lemma TracedNext(rules: Rules, maps: nat, first: Walked, now: Walked, turns: seq<Turn>, listed: seq<Id>, current: seq<Id>, i: nat,
                   ids: set<Id>, left: set<Id>, after: Walked)
    requires Traced(rules, maps, first, now, turns, listed, current, i, ids, left) && i < |current|
    requires after == WalkFrom(rules, maps, current[i], Restarted(now), 0)
    ensures Traced(rules, maps, first, after, turns + [Turn(current[i], Restarted(now), after)], listed, current + after.more, i + 1, ids,
                   if after.changed then left - {current[i]} else left)
  {
    hide TurnsOk, Last, Ids, Queued, Used, WalkFrom;
    TurnTaken(rules, maps, first, turns, Turn(current[i], Restarted(now), after));
    assert (current + after.more)[..i + 1] == current[..i] + [current[i]];
  }

  /** `addToMaps` for `cross_map`: an entry with the same inferences gets the card, or a new one is appended. */
  function AddTo(es: seq<Cross>, ids: set<Id>, o: Order): seq<Cross> {
    if es == [] then [Cross(ids, [o])]
    else if es[0].ids == ids then [Cross(ids, if o in es[0].orders then es[0].orders else es[0].orders + [o])] + es[1..]
    else [es[0]] + AddTo(es[1..], ids, o)
  }

  lemma {:induction false} AddToAt(es: seq<Cross>, ids: set<Id>, o: Order, k: nat)
    requires k <= |es| && (forall j | 0 <= j < k :: es[j].ids != ids) && (k < |es| ==> es[k].ids == ids)
    ensures AddTo(es, ids, o) == if k == |es| then es + [Cross(ids, [o])]
                                 else es[k := Cross(ids, if o in es[k].orders then es[k].orders else es[k].orders + [o])]
  {
    if k > 0 {
      AddToAt(es[1..], ids, o, k - 1);
      assert es == [es[0]] + es[1..];
    }
  }

  /** A card only loses what another card of an entry, which has as many cards as identities, is known to be. */
  ghost predicate LostToOthers(es: seq<Cross>, known: seq<Option<Id>>, a: seq<Card>, b: seq<Card>) {
    |a| == |b| && forall o, id | 0 <= o < |a| && id in a[o].inferred && id !in b[o].inferred :: KnownElsewhere(es, known, o, id)
  }

  ghost predicate KnownElsewhere(es: seq<Cross>, known: seq<Option<Id>>, o: Order, id: Id) {
    exists e, j :: e in es && |e.orders| == |e.ids| && o in e.orders && 0 <= j < |e.orders| && e.orders[j] < |known| && known[e.orders[j]] == Some(id)
  }

  ghost predicate ListSpared(rules: Rules, maps: nat, ids: seq<Id>, candidates: seq<Candidate>, thoughts: seq<Card>) {
    forall id, c | id in ids && c in candidates :: Spared(rules, maps, id, c, thoughts)
  }

  lemma NoneSpared(rules: Rules, maps: nat, candidates: seq<Candidate>, thoughts: seq<Card>)
    ensures ListSpared(rules, maps, [], candidates, thoughts)
  {
  }

  lemma OneMoreSpared(rules: Rules, maps: nat, ids: seq<Id>, i: nat, candidates: seq<Candidate>, thoughts: seq<Card>)
    requires i < |ids| && ListSpared(rules, maps, ids[..i], candidates, thoughts)
    requires forall c | c in candidates :: Spared(rules, maps, ids[i], c, thoughts)
    ensures ListSpared(rules, maps, ids[..i + 1], candidates, thoughts)
  {
    hide Spared;
    assert ids[..i + 1] == ids[..i] + [ids[i]];
  }

  lemma ListIsAll(rules: Rules, maps: nat, list: seq<Id>, ids: set<Id>, candidates: seq<Candidate>, thoughts: seq<Card>)
    requires ListSpared(rules, maps, list[..|list|], candidates, thoughts) && forall id | id in ids :: id in list
    ensures AllSpared(rules, maps, ids, candidates, thoughts)
  {
    hide Spared;
    assert list[..|list|] == list;
  }

  class GoodTouchElim {
    const numSuits: nat
    const rules: Rules
    var thoughts: seq<Card>
    var owned: set<Order>             // orders with an entry in newThoughts
    var identities: set<Id>           // identities still considered
    var candidates: seq<Candidate>
    var crossMap: seq<Cross>
    var maps: nat                     // how often the maps have been refilled

    constructor (numSuits: nat, rules: Rules, thoughts: seq<Card>, identities: set<Id>, candidates: seq<Candidate>, crossMap: seq<Cross>)
      ensures this.numSuits == numSuits && this.rules == rules && this.thoughts == thoughts && this.identities == identities
      ensures this.candidates == candidates && this.crossMap == crossMap
    {
      this.numSuits, this.rules, this.thoughts, this.owned, this.identities := numSuits, rules, thoughts, {}, identities;
      this.candidates, this.crossMap, this.maps := candidates, crossMap, 0;
    }

    predicate Valid()
      reads this
    {
      && numSuits <= 6
      && (forall o | 0 <= o < |thoughts| :: Bounded(thoughts[o], numSuits))
      && Within(identities, numSuits)
      && (forall c | c in candidates :: c.order < |thoughts|)
      && (forall e, o | e in crossMap && o in e.orders :: o < |thoughts|)
    }

    /** `updateThoughts(order, draft => draft.inferred = ...)` */
    method SetInferred(o: Order, ids: set<Id>)
      requires Valid() && o < |thoughts| && ids <= thoughts[o].inferred
      modifies `thoughts, `owned
      ensures Valid() && thoughts == old(thoughts)[o := old(thoughts)[o].(inferred := ids)] && owned == old(owned) + {o}
      ensures Measure(thoughts) == Measure(old(thoughts)) - |old(thoughts)[o].inferred| + |ids|
    {
      MeasureUpdate(thoughts, o, thoughts[o].(inferred := ids));
      thoughts := thoughts[o := thoughts[o].(inferred := ids)];
      owned := owned + {o};
    }

    /** One elimination of `basic_elim`; a card left without inferences is reset once. */
    method EliminateOne(c: Candidate, id: Id) returns (pushed: Option<Id>)
      requires Valid() && c.order < |thoughts| && id in thoughts[c.order].inferred
      modifies `thoughts, `owned
      ensures Valid() && Narrowed(old(thoughts), thoughts) && Measure(thoughts) < Measure(old(thoughts))
      ensures thoughts == old(thoughts)[c.order := Losing(old(thoughts)[c.order], c.cm, id)]
      ensures owned == old(owned) + {c.order}
      ensures Pushed(rules, old(owned), old(thoughts)[c.order], c, id) == if pushed.Some? then [pushed.value] else []
    {
      var o := c.order;
      // the old card is the very object that is updated, if it was updated before
      var alias := o in owned;
      var oldLength := |thoughts[o].inferred|;
      var newInferred := thoughts[o].inferred - {id};
      SetInferred(o, newInferred);
      pushed := None;
      if !c.cm {
        if newInferred == {} && !thoughts[o].reset {
          ResetLighter(thoughts[o], numSuits);
          MeasureUpdate(thoughts, o, thoughts[o].ResetInferences());
          thoughts := thoughts[o := thoughts[o].ResetInferences()];
        } else if |newInferred| == 1 && (if alias then |newInferred| else oldLength) > 1 && !rules.trash(TheOne(newInferred)) {
          pushed := Some(TheOne(newInferred));
        }
      }
    }

    /** `basic_elim`: newly known identities are appended to the list being walked, and candidates may be dropped
        from theirs while it is walked, which skips the next one. In the end every candidate is mapped again.
        If nothing changed and no candidate was dropped, nothing that is allowed was left to do. */
    method BasicElim() returns (changed: bool, ghost turns: seq<Turn>)
      requires Valid()
      modifies this
      ensures TurnsOk(rules, old(maps), old(Now([], false)), turns) && Ids(turns) == ArrayOf(old(identities), numSuits) + Queued(turns)
      ensures Restarted(Last(old(Now([], false)), turns)) == Now([], false)
      ensures identities == old(identities) - Used(turns) && maps == old(maps) + 1
      ensures Valid() && Narrowed(old(thoughts), thoughts) && identities <= old(identities)
      ensures Measure(thoughts) <= Measure(old(thoughts)) && (changed ==> Measure(thoughts) < Measure(old(thoughts)))
      ensures !changed ==> thoughts == old(thoughts) && identities == old(identities)
      ensures !changed && candidates == old(candidates) ==> AllSpared(rules, old(maps), identities, candidates, thoughts)
    {
      hide Narrowed, Measure, Spared, ListSpared, AllSpared, Traced, TurnsOk, Last, Ids, Queued, Used, WalkFrom;
      changed, turns := false, [];
      ghost var first := Now([], false);
      NarrowedReflexive(thoughts);
      var current := ArrayOf(identities, numSuits);
      ArrayOfIsExact(identities, numSuits);
      ghost var listed0 := current;
      assert current[..0] == [];
      assert ListSpared(rules, maps, [], candidates, thoughts) by { NoneSpared(rules, maps, candidates, thoughts); }
      TracedFirst(rules, maps, first, listed0, identities);
      var newIdentities := identities;
      ghost var before := candidates;
      var i := 0;
      while i < |current|
        invariant 0 <= i <= |current| && newIdentities <= identities == old(identities) && Valid() && Narrowed(old(thoughts), thoughts)
        invariant Measure(thoughts) <= Measure(old(thoughts)) && (changed ==> Measure(thoughts) < Measure(old(thoughts)))
        invariant maps == old(maps) && |candidates| <= |before|
        invariant Traced(rules, maps, first, Now([], false), turns, listed0, current, i, identities, newIdentities)
        invariant !changed ==> thoughts == old(thoughts) && newIdentities == identities && current == listed0
        invariant |candidates| == |before| ==> candidates == before
        invariant !changed && candidates == before ==> ListSpared(rules, maps, current[..i], candidates, thoughts)
        decreases Measure(thoughts), |current| - i
      {
        ghost var t, from := thoughts, Now([], false);
        var more, any := Walk(current[i]);
        TracedNext(rules, maps, first, from, turns, listed0, current, i, identities, newIdentities, Now(more, any));
        turns := turns + [Turn(current[i], from, Now(more, any))];
        TracedSame(rules, maps, first, Now(more, any), Now([], false), turns, listed0, current + more, i + 1, identities,
                   if any then newIdentities - {current[i]} else newIdentities);
        NarrowedMore(old(thoughts), t, thoughts);
        if !changed && !any && candidates == before {
          OneMoreSpared(rules, maps, current, i, candidates, thoughts);
          assert more == [] && current + more == current;
        }
        changed := changed || any;
        if any { newIdentities := newIdentities - {current[i]}; }
        current := current + more;
        i := i + 1;
      }
      TracedAll(rules, maps, first, Now([], false), turns, listed0, current, identities, newIdentities);
      if !changed && candidates == before { ListIsAll(rules, maps, current, identities, candidates, thoughts); }
      MapCandidates();
      identities := newIdentities;
    }

    /** In the end of `basic_elim` every candidate is mapped again. */
    method MapCandidates()
      requires Valid()
      modifies `crossMap, `maps
      ensures Valid() && maps == old(maps) + 1
    {
      for j := 0 to |candidates|
        invariant Valid() && maps == old(maps)
      {
        assert candidates[j] in candidates;
        AddToCrossMap(candidates[j].order);
      }
      maps := maps + 1;
    }

    function Now(more: seq<Id>, changed: bool): Walked
      reads this
    {
      Walked(thoughts, owned, candidates, more, changed)
    }

    /** The loop over the candidates for one identity. */
    method Walk(id: Id) returns (more: seq<Id>, changed: bool)
      requires Valid()
      modifies `thoughts, `owned, `candidates
      ensures Now(more, changed) == WalkFrom(rules, maps, id, old(Now([], false)), 0)
      ensures Valid() && Narrowed(old(thoughts), thoughts)
      ensures Measure(thoughts) <= Measure(old(thoughts)) && (changed ==> Measure(thoughts) < Measure(old(thoughts)))
      ensures (more != [] ==> changed) && (!changed ==> thoughts == old(thoughts))
      ensures |candidates| <= |old(candidates)| && (|candidates| == |old(candidates)| ==> candidates == old(candidates))
      ensures !changed && candidates == old(candidates) ==> forall c | c in candidates :: Spared(rules, maps, id, c, thoughts)
    {
      hide Measure, Narrowed, Losing, Pushed, WalkFrom;
      more, changed := [], false;
      ghost var before, first := candidates, Now([], false);
      NarrowedReflexive(thoughts);
      var j := 0;
      while j < |candidates|
        invariant Valid() && Narrowed(old(thoughts), thoughts) && j >= 0 && (more != [] ==> changed)
        invariant Measure(thoughts) <= Measure(old(thoughts)) && (changed ==> Measure(thoughts) < Measure(old(thoughts)))
        invariant WalkFrom(rules, maps, id, Now(more, changed), j) == WalkFrom(rules, maps, id, first, 0)
        invariant !changed ==> thoughts == old(thoughts)
        invariant |candidates| <= |before| && (|candidates| == |before| ==> candidates == before)
        invariant !changed && candidates == before ==> j <= |candidates| && forall k | 0 <= k < j :: Spared(rules, maps, id, candidates[k], thoughts)
        decreases |candidates| - j
      {
        var c := candidates[j];
        ghost var s := Now(more, changed);
        WalkStep(rules, maps, id, s, j);
        if id in thoughts[c.order].inferred {
          var decision := rules.decide(maps, id, c, thoughts);
          if decision.GiveUp? {
            // a recently finessed card is also marked, which gives it an entry in newThoughts
            if decision.marked { owned := owned + {c.order}; }
            candidates := candidates[..j] + candidates[j + 1..];
          } else if decision == Eliminate {
            ghost var t := thoughts;
            var pushed := EliminateOne(c, id);
            NarrowedMore(old(thoughts), t, thoughts);
            changed := true;
            if pushed.Some? { more := more + [pushed.value]; }
            assert more == s.more + Pushed(rules, s.owned, t[c.order], c, id);
          }
        }
        j := j + 1;
      }
      WalkEnds(rules, maps, id, Now(more, changed), j);
    }

    /** The pairs of one entry of `cross_map`. An object that was not updated before keeps its old inferences here. */
    method CrossPairs(e: Cross, known: seq<Option<Id>>) returns (change: bool)
      requires Valid() && (forall o | o in e.orders :: o < |thoughts|) && |known| == |thoughts|
      modifies `thoughts, `owned
      ensures Valid() && Narrowed(old(thoughts), thoughts)
      ensures Measure(thoughts) <= Measure(old(thoughts)) && (change ==> Measure(thoughts) < Measure(old(thoughts)))
      ensures !change ==> thoughts == old(thoughts) && PairsSpared(rules, e, known, thoughts)
      ensures |e.orders| == |e.ids| ==> LostToOthers([e], known, old(thoughts), thoughts)
    {
      hide Measure, Narrowed, LostToOthers;
      NothingLost([e], known, thoughts);
      change := false;
      NarrowedReflexive(thoughts);
      for i := 0 to |e.orders|
        invariant Valid() && Narrowed(old(thoughts), thoughts) && |thoughts| == |known|
        invariant |e.orders| == |e.ids| ==> LostToOthers([e], known, old(thoughts), thoughts)
        invariant Measure(thoughts) <= Measure(old(thoughts)) && (change ==> Measure(thoughts) < Measure(old(thoughts)))
        invariant !change ==> thoughts == old(thoughts) && forall k | 0 <= k < i :: CardSpared(e, k, |e.orders|, known)
      {
        var o := e.orders[i];
        assert o in e.orders;
        var alias := o in owned;
        var snapshot := thoughts[o].inferred;
        for j := 0 to |e.orders|
          invariant Valid() && Narrowed(old(thoughts), thoughts) && |thoughts| == |known|
        invariant |e.orders| == |e.ids| ==> LostToOthers([e], known, old(thoughts), thoughts)
          invariant Measure(thoughts) <= Measure(old(thoughts)) && (change ==> Measure(thoughts) < Measure(old(thoughts)))
          invariant thoughts[o].inferred <= snapshot && (change || thoughts[o].inferred == snapshot)
          invariant !change ==> thoughts == old(thoughts) && CardSpared(e, i, j, known) && forall k | 0 <= k < i :: CardSpared(e, k, |e.orders|, known)
        {
          assert e.orders[j] in e.orders;
          var other := known[e.orders[j]];
          if i != j && rules.pairs(o, e.orders[j], thoughts) && other.Some?
             && other.value in (if alias then thoughts[o].inferred else snapshot)
          {
            ghost var t := thoughts;
            SetInferred(o, thoughts[o].inferred - {other.value});
            OneInferredLess(t, o, other.value);
            NarrowedMore(old(thoughts), t, thoughts);
            if |e.orders| == |e.ids| { OneMoreLost(e, known, old(thoughts), t, i, j); }
            change := true;
          }
        }
      }
      if !change {
        forall i, j | 0 <= i < |e.orders| && 0 <= j < |e.orders| && i != j && e.orders[i] < |thoughts| && e.orders[j] < |known|
          ensures known[e.orders[j]].Some? && known[e.orders[j]].value in thoughts[e.orders[i]].inferred
                  ==> !rules.pairs(e.orders[i], e.orders[j], thoughts)
        {
          assert CardSpared(e, i, |e.orders|, known);
        }
      }
    }

    /** The card at place i may lose what none of the first n cards of the entry is. */
    ghost predicate CardSpared(e: Cross, i: nat, n: nat, known: seq<Option<Id>>)
      reads this
    {
      forall j | 0 <= j < n && n <= |e.orders| && i < |e.orders| && i != j && e.orders[i] < |thoughts| && e.orders[j] < |known| ::
        known[e.orders[j]].Some? && known[e.orders[j]].value in thoughts[e.orders[i]].inferred ==> !rules.pairs(e.orders[i], e.orders[j], thoughts)
    }

    /** `addToMaps`, as far as `cross_map` is concerned. */
    method AddToCrossMap(o: Order)
      requires Valid() && o < |thoughts|
      modifies `crossMap
      ensures Valid() && |crossMap| >= |old(crossMap)|
      ensures crossMap == if rules.shares(maps, o, thoughts) && |thoughts[o].inferred| < 5 then AddTo(old(crossMap), thoughts[o].inferred, o)
                          else old(crossMap)
    {
      if !rules.shares(maps, o, thoughts) || |thoughts[o].inferred| >= 5 {
        return;
      }
      ghost var was := crossMap;
      for k := 0 to |crossMap|
        invariant Valid() && crossMap == was && forall j | 0 <= j < k :: crossMap[j].ids != thoughts[o].inferred
      {
        if crossMap[k].ids == thoughts[o].inferred {
          AddToAt(was, thoughts[o].inferred, o, k);
          var orders := crossMap[k].orders;
          var entry := Cross(crossMap[k].ids, if o in orders then orders else orders + [o]);
          crossMap := crossMap[k := entry];
          assert was[k] in was && crossMap[k] == entry;
          assert forall e | e in crossMap :: e in was || e == entry;
          return;
        }
      }
      AddToAt(was, thoughts[o].inferred, o, |was|);
      crossMap := crossMap + [Cross(thoughts[o].inferred, [o])];
    }

    /** `cross_elim`: a changed entry is deleted, and the entries that replace it are visited in the same loop.
        If nothing changed, no entry allowed anything. */
    method CrossElim(known: seq<Option<Id>>) returns (changed: bool, ghost used: seq<Cross>)
      requires Valid() && |known| == |thoughts|
      modifies `thoughts, `owned, `crossMap, `maps
      ensures LostToOthers(used, known, old(thoughts), thoughts) && forall e | e in used :: |e.orders| == |e.ids|
      ensures maps == old(maps) + |used| && (changed <==> used != [])
      ensures Valid() && Narrowed(old(thoughts), thoughts)
      ensures Measure(thoughts) <= Measure(old(thoughts)) && (changed ==> Measure(thoughts) < Measure(old(thoughts)))
      ensures !changed ==> thoughts == old(thoughts) && crossMap == old(crossMap) && AllPairsSpared(rules, crossMap, known, thoughts)
    {
      hide Measure, Narrowed, PairsSpared, LostToOthers;
      changed, used := false, [];
      NothingLost([], known, thoughts);
      NarrowedReflexive(thoughts);
      var p := 0;
      while p < |crossMap|
        invariant 0 <= p <= |crossMap| && Valid() && Narrowed(old(thoughts), thoughts) && |known| == |thoughts|
        invariant LostToOthers(used, known, old(thoughts), thoughts) && (forall e | e in used :: |e.orders| == |e.ids|)
        invariant maps == old(maps) + |used| && (changed <==> used != [])
        invariant Measure(thoughts) <= Measure(old(thoughts)) && (changed ==> Measure(thoughts) < Measure(old(thoughts)))
        invariant !changed ==> thoughts == old(thoughts) && crossMap == old(crossMap)
                               && forall k | 0 <= k < p :: PairsSpared(rules, crossMap[k], known, thoughts)
        decreases Measure(thoughts), |crossMap| - p
      {
        var e := crossMap[p];
        ghost var t := thoughts;
        if |e.orders| != |e.ids| {
          OddPairs(rules, e, known, thoughts);
          p := p + 1;
          continue;
        }
        var change := CrossPairs(e, known);
        NarrowedMore(old(thoughts), t, thoughts);
        if !change {
          p := p + 1;
          continue;
        }
        changed := true;
        LostMore(used, e, known, old(thoughts), t, thoughts);
        used := used + [e];
        crossMap := crossMap[..p] + crossMap[p + 1..];
        ghost var now := thoughts;
        for k := 0 to |e.orders|
          invariant Valid() && thoughts == now && |crossMap| >= p && maps == old(maps) + |used| - 1
        {
          assert e.orders[k] in e.orders;
          AddToCrossMap(e.orders[k]);
        }
        maps := maps + 1;
      }
    }

    /** The loop of `good_touch_elim` ends; it never touches what is possible. In the end no entry that was walked last allows
        a pair to be told apart, and unless the last walk dropped a candidate, no candidate may lose an inference. */
    method Run(known: seq<Option<Id>>) returns (ghost last: nat, ghost dropped: bool, ghost walked: seq<Cross>)
      requires Valid() && |known| == |thoughts|
      modifies this
      ensures Valid() && Narrowed(old(thoughts), thoughts) && Measure(thoughts) <= Measure(old(thoughts))
      ensures !dropped ==> AllSpared(rules, last, identities, candidates, thoughts)
      ensures AllPairsSpared(rules, walked, known, thoughts)
    {
      hide Measure, Narrowed, AllSpared, AllPairsSpared;
      last := maps;
      ghost var t, cs := thoughts, candidates;
      var basicChanged, turns := BasicElim();
      dropped := candidates != cs;
      ghost var t1 := thoughts;
      NarrowedSize(t, t1);
      var crossChanged, used := CrossElim(known);
      walked := crossMap;
      NarrowedMore(t, t1, thoughts);
      while basicChanged || crossChanged
        invariant Valid() && Narrowed(t, thoughts) && Measure(thoughts) <= Measure(t)
        invariant !basicChanged && !crossChanged && !dropped ==> AllSpared(rules, last, identities, candidates, thoughts)
        invariant !crossChanged ==> AllPairsSpared(rules, walked, known, thoughts)
        decreases Measure(thoughts), if basicChanged || crossChanged then 1 else 0
      {
        last := maps;
        ghost var u, ds := thoughts, candidates;
        basicChanged, turns := BasicElim();
        dropped := candidates != ds;
        NarrowedMore(t, u, thoughts);
        if basicChanged || crossChanged {
          ghost var u1 := thoughts;
          NarrowedSize(t, u1);
          crossChanged, used := CrossElim(known);
          walked := crossMap;
          NarrowedMore(t, u1, thoughts);
        }
      }
    }
  }

  lemma NarrowedReflexive(a: seq<Card>)
    ensures Narrowed(a, a)
  {
  }

  lemma NarrowedSize(a: seq<Card>, b: seq<Card>)
    requires Narrowed(a, b)
    ensures |a| == |b|
  {
  }

  lemma NarrowedMore(a: seq<Card>, b: seq<Card>, c: seq<Card>)
    requires Narrowed(a, b) && Narrowed(b, c)
    ensures Narrowed(a, c)
  {
  }

  lemma OneInferredLess(a: seq<Card>, o: Order, id: Id)
    requires o < |a|
    ensures Narrowed(a, a[o := a[o].(inferred := a[o].inferred - {id})])
  {
  }

  lemma OddPairs(rules: Rules, e: Cross, known: seq<Option<Id>>, thoughts: seq<Card>)
    requires |e.orders| != |e.ids|
    ensures PairsSpared(rules, e, known, thoughts)
  {
  }

  lemma NoTurns(rules: Rules, maps: nat, first: Walked)
    ensures TurnsOk(rules, maps, first, []) && Last(first, []) == first && Ids([]) == [] && Queued([]) == [] && Used([]) == {}
  {
  }

  lemma NothingLost(es: seq<Cross>, known: seq<Option<Id>>, a: seq<Card>)
    ensures LostToOthers(es, known, a, a)
  {
  }

  lemma OneMoreLost(e: Cross, known: seq<Option<Id>>, a: seq<Card>, b: seq<Card>, i: nat, j: nat)
    requires LostToOthers([e], known, a, b) && |e.orders| == |e.ids| && i < |e.orders| && j < |e.orders| && e.orders[i] < |b|
    requires e.orders[j] < |known| && known[e.orders[j]].Some?
    ensures var o := e.orders[i]; LostToOthers([e], known, a, b[o := b[o].(inferred := b[o].inferred - {known[e.orders[j]].value})])
  {
    var o := e.orders[i];
    assert e in [e] && o in e.orders;
    assert KnownElsewhere([e], known, o, known[e.orders[j]].value);
    hide KnownElsewhere;
  }

  lemma LostMore(used: seq<Cross>, e: Cross, known: seq<Option<Id>>, a: seq<Card>, b: seq<Card>, c: seq<Card>)
    requires LostToOthers(used, known, a, b) && LostToOthers([e], known, b, c)
    ensures LostToOthers(used + [e], known, a, c)
  {
    forall o, id | 0 <= o < |a| && id in a[o].inferred && id !in c[o].inferred
      ensures KnownElsewhere(used + [e], known, o, id)
    {
      if id in b[o].inferred {
        assert KnownElsewhere([e], known, o, id);
      } else {
        assert KnownElsewhere(used, known, o, id);
      }
    }
  }

  lemma TracedSame(rules: Rules, maps: nat, first: Walked, now: Walked, same: Walked, turns: seq<Turn>, listed: seq<Id>, current: seq<Id>, i: nat,
                   ids: set<Id>, left: set<Id>)
    requires Traced(rules, maps, first, now, turns, listed, current, i, ids, left) && Restarted(same) == Restarted(now)
    ensures Traced(rules, maps, first, same, turns, listed, current, i, ids, left)
  {
  }

  lemma TracedAll(rules: Rules, maps: nat, first: Walked, now: Walked, turns: seq<Turn>, listed: seq<Id>, current: seq<Id>,
                  ids: set<Id>, left: set<Id>)
    requires Traced(rules, maps, first, now, turns, listed, current, |current|, ids, left)
    ensures TurnsOk(rules, maps, first, turns) && Restarted(Last(first, turns)) == Restarted(now)
    ensures Ids(turns) == listed + Queued(turns) && left == ids - Used(turns)
  {
    assert current[..|current|] == current;
  }
}
