// `card_elim` of src/basics/player-elim.js: the working state its closures share.
module Elimination {
  import opened Cards
  import opened GameState
  import opened Beliefs

  /** For each identity, the orders known to be it and the players who do not know. */
  type CertainMap = map<Id, map<Order, set<nat>>>

  predicate IsCertain(m: CertainMap, id: Id, o: Order) {
    id in m && o in m[id]
  }

  /** A snapshot of the variables captured by the closures of `card_elim`. */
  datatype Work = Work(
    thoughts: map<Order, Card>,
    certain: CertainMap,
    candidates: seq<Entry>,
    eliminated: set<Id>,
    thrown: bool)                      // the "no more possible ids" error was raised

  /** Well-formedness, independent of any deal. */
  ghost predicate Ok(st: State, start: seq<Card>, v: Work) {
    && st.WellFormed() && DistinctOrders(st) && ThoughtsCover(st, start)
    && v.thoughts.Keys == HandOrders(st)
    && (forall o | o in HandOrders(st) ::
          && v.thoughts[o].possible <= start[o].possible
          && v.thoughts[o].seen == start[o].seen
          && v.thoughts[o].rewindIds == start[o].rewindIds
          && v.thoughts[o].clued == start[o].clued)
    && (forall o, id | o in HandOrders(st) && id in start[o].possible :: st.ValidId(id))
    && OnlyHeld(st, v.certain)
    && CandidatesOk(st, v.candidates)
  }

  ghost predicate CandidatesOk(st: State, cs: seq<Entry>) {
    && (forall e | e in cs :: e in Entries(st))
    && (forall j, k | 0 <= j < k < |cs| :: cs[j].order != cs[k].order)
  }

  /** The working state says nothing false about the deal. */
  ghost predicate Agrees(w: Deal, st: State, v: Work)
    requires st.WellFormed()
  {
    && !v.thrown
    && (forall o | o in v.thoughts :: o < |w| && w[o] in v.thoughts[o].possible)
    && (forall id: Id, o: Order | IsCertain(v.certain, id, o) :: o < |w| && w[o] == id)
    && (forall id | id in v.eliminated :: |Held(w, st, id)| + st.BaseCount(id) == st.CardCount(id))
  }

  /** No deal that was possible at the start has been excluded. */
  ghost predicate Sound(st: State, start: seq<Card>, v: Work)
    requires st.WellFormed()
  {
    forall w | Consistent(w, st, start) :: Agrees(w, st, v)
  }

  ghost predicate FromLater(cs: seq<Entry>, j: nat, e: Entry) {
    exists i :: j <= i < |cs| && cs[i] == e
  }

  /** Entries only move towards the front when others are filtered out. */
  ghost predicate Thinned(cs: seq<Entry>, ds: seq<Entry>) {
    && |ds| <= |cs|
    && forall j | 0 <= j < |ds| :: FromLater(cs, j, ds[j])
  }

  /** Nothing becomes hidden from a player that was not hidden before. */
  ghost predicate NoLessKnown(m0: CertainMap, m1: CertainMap) {
    forall id: Id, p: nat | UnknownTo(m1, id, p) :: UnknownTo(m0, id, p)
  }

  /** Everything that any elimination step keeps: beliefs shrink, certainties grow. */
  ghost predicate Refines(v0: Work, v1: Work) {
    && v0.thoughts.Keys == v1.thoughts.Keys
    && (forall o | o in v0.thoughts :: v1.thoughts[o].possible <= v0.thoughts[o].possible)
    && (forall id | id in v0.certain :: id in v1.certain && v0.certain[id].Keys <= v1.certain[id].Keys)
    && NoLessKnown(v0.certain, v1.certain)
    && v0.eliminated <= v1.eliminated
    && Thinned(v0.candidates, v1.candidates)
  }

  lemma RefinesTransitive(v0: Work, v1: Work, v2: Work)
    requires Refines(v0, v1) && Refines(v1, v2)
    ensures Refines(v0, v2)
  {
    forall j | 0 <= j < |v2.candidates|
      ensures FromLater(v0.candidates, j, v2.candidates[j])
    {
      assert FromLater(v1.candidates, j, v2.candidates[j]);
      var k :| j <= k < |v1.candidates| && v1.candidates[k] == v2.candidates[j];
      assert FromLater(v0.candidates, k, v1.candidates[k]);
      var i :| k <= i < |v0.candidates| && v0.candidates[i] == v1.candidates[k];
      assert v0.candidates[i] == v2.candidates[j];
    }
  }

  /** Total number of possibilities left: the measure of every fixpoint below. */
  ghost function Size(v: Work, es: seq<Entry>): nat {
    if es == [] then 0
    else (if es[0].order in v.thoughts then |v.thoughts[es[0].order].possible| else 0) + Size(v, es[1..])
  }

  lemma {:induction false} SizeShrinks(v0: Work, v1: Work, es: seq<Entry>)
    requires v0.thoughts.Keys == v1.thoughts.Keys
    requires forall o | o in v0.thoughts :: v1.thoughts[o].possible <= v0.thoughts[o].possible
    ensures Size(v1, es) <= Size(v0, es)
    ensures (exists e :: e in es && e.order in v0.thoughts && v1.thoughts[e.order].possible < v0.thoughts[e.order].possible)
            ==> Size(v1, es) < Size(v0, es)
  {
    if es != [] {
      SizeShrinks(v0, v1, es[1..]);
      if es[0].order in v0.thoughts {
        SubsetCardinality(v1.thoughts[es[0].order].possible, v0.thoughts[es[0].order].possible);
      }
      assert es == [es[0]] + es[1..];
    }
  }

  function Without(cs: seq<Entry>, removed: set<Order>): (ds: seq<Entry>)
    ensures forall e :: e in ds <==> e in cs && e.order !in removed
  {
    if cs == [] then []
    else if cs[0].order in removed then Without(cs[1..], removed)
    else [cs[0]] + Without(cs[1..], removed)
  }

  lemma {:induction false} WithoutNothing(cs: seq<Entry>)
    ensures Without(cs, {}) == cs
  {
    if cs != [] {
      WithoutNothing(cs[1..]);
      assert cs == [cs[0]] + cs[1..];
    }
  }

  lemma {:induction false} WithoutOk(st: State, cs: seq<Entry>, removed: set<Order>)
    requires CandidatesOk(st, cs)
    ensures CandidatesOk(st, Without(cs, removed))
  {
    if cs != [] {
      assert CandidatesOk(st, cs[1..]);
      WithoutOk(st, cs[1..], removed);
    }
  }

  lemma {:induction false} WithoutThins(cs: seq<Entry>, removed: set<Order>)
    ensures Thinned(cs, Without(cs, removed))
  {
    if cs != [] {
      WithoutThins(cs[1..], removed);
      var rest := Without(cs[1..], removed);
      forall j | 0 <= j < |Without(cs, removed)|
        ensures FromLater(cs, j, Without(cs, removed)[j])
      {
        if cs[0].order in removed {
          LaterToo(cs, j, rest[j], j);
        } else if j == 0 {
          assert cs[0] == Without(cs, removed)[0];
        } else {
          LaterToo(cs, j - 1, rest[j - 1], j);
        }
      }
    }
  }

  lemma LaterToo(cs: seq<Entry>, j: nat, e: Entry, k: nat)
    requires cs != [] && FromLater(cs[1..], j, e) && k <= j + 1
    ensures FromLater(cs, k, e)
  {
    var i :| j <= i < |cs[1..]| && cs[1..][i] == e;
    assert cs[i + 1] == e;
  }

  /** `mapInsertMap`. */
  function InsertCertain(m: CertainMap, id: Id, o: Order, unknownTo: set<nat>): (r: CertainMap)
    ensures forall i | i in m :: i in r && m[i].Keys <= r[i].Keys
    ensures unknownTo == {} ==> NoLessKnown(m, r)
    ensures forall i: Id, p: Order :: IsCertain(r, i, p) <==> IsCertain(m, i, p) || (i == id && p == o)
  {
    var known: map<Order, set<nat>> := if id in m then m[id] else map[];
    m[id := known[o := unknownTo]]
  }

  /** Some card known to others to be id is hidden from player p. */
  predicate UnknownTo(m: CertainMap, id: Id, p: nat) {
    id in m && exists o | o in m[id] :: p in m[id][o]
  }

  /** update_map removes id from this card. */
  predicate Targeted(v: Work, id: Id, exclude: set<nat>, e: Entry)
    requires e.order in v.thoughts
  {
    && e.player !in exclude
    && id in v.thoughts[e.order].possible
    && !IsCertain(v.certain, id, e.order)
    && !UnknownTo(v.certain, id, e.player)
  }

  ghost predicate InThoughts(v: Work, es: seq<Entry>) {
    forall e | e in es :: e.order in v.thoughts
  }

  /** The deal puts id on no targeted card. */
  ghost predicate Spares(w: Deal, v: Work, id: Id, exclude: set<nat>, es: seq<Entry>)
    requires InThoughts(v, es)
  {
    forall e | e in es && Targeted(v, id, exclude, e) :: e.order < |w| && w[e.order] != id
  }

  /** The licence for update_map: no consistent deal puts id on a targeted card. */
  ghost predicate NoneElsewhere(st: State, start: seq<Card>, v: Work, id: Id, exclude: set<nat>)
    requires st.WellFormed()
  {
    InThoughts(v, Entries(st)) && forall w | Consistent(w, st, start) :: Spares(w, v, id, exclude, Entries(st))
  }

  /** What update_map does to the possibilities of one card. */
  ghost predicate Removed(v0: Work, v1: Work, id: Id, exclude: set<nat>, e: Entry)
    requires e.order in v0.thoughts && e.order in v1.thoughts
  {
    v1.thoughts[e.order].possible ==
      v0.thoughts[e.order].possible - (if Targeted(v0, id, exclude, e) then {id} else {})
  }

  // ----- One pass of update_map -----

  /** The card after losing id, before any reset. */
  function Losing(c: Card, id: Id): Card {
    c.(possible := c.possible - {id}, inferred := c.inferred - {id})
  }

  /** The body of update_map's loop, for a card that is targeted. */
  function EliminateAt(v: Work, o: Order, id: Id): (r: Work)
    requires o in v.thoughts
    ensures r.thoughts.Keys == v.thoughts.Keys
    ensures r.thoughts[o].possible == v.thoughts[o].possible - {id}
    ensures SameFacts(r.thoughts[o], v.thoughts[o])
  {
    var c := Losing(v.thoughts[o], id);
    var thrown := v.thrown || c.possible == {};
    if c.inferred == {} && !c.reset then
      v.(thoughts := v.thoughts[o := c.ResetInferences()], thrown := thrown)
    else if |c.possible| == 1 then
      v.(thoughts := v.thoughts[o := c], thrown := thrown, certain := InsertCertain(v.certain, TheOne(c.possible), o, {}))
    else
      v.(thoughts := v.thoughts[o := c], thrown := thrown)
  }

  /** The facts about a card that elimination never touches. */
  ghost predicate SameFacts(c: Card, d: Card) {
    c.seen == d.seen && c.rewindIds == d.rewindIds && c.clued == d.clued && c.possible <= d.possible
  }

  /** Certainties only grow, new ones come from lone possibilities,
      and those about id stay the same while id is being removed. */
  ghost predicate Grows(v0: Work, v1: Work, id: Id) {
    && (forall i | i in v0.certain :: i in v1.certain && v0.certain[i].Keys <= v1.certain[i].Keys)
    && (forall i: Id, o: Order | IsCertain(v1.certain, i, o) ::
          IsCertain(v0.certain, i, o) || (o in v1.thoughts && v1.thoughts[o].possible == {i}))
    && NoLessKnown(v0.certain, v1.certain)
    && (id in v0.certain <==> id in v1.certain)
    && (id in v0.certain ==> v0.certain[id] == v1.certain[id])
  }

  ghost predicate OrdersDistinct(es: seq<Entry>) {
    forall j, k | 0 <= j < k < |es| :: es[j].order != es[k].order
  }

  /** Cards from position k on have not been looked at. */
  ghost predicate Untouched(v0: Work, v1: Work, es: seq<Entry>, k: nat)
    requires InThoughts(v0, es) && InThoughts(v1, es)
  {
    && (forall j | k <= j < |es| :: v1.thoughts[es[j].order] == v0.thoughts[es[j].order])
    && (forall i, j | k <= j < |es| && IsCertain(v1.certain, i, es[j].order) :: IsCertain(v0.certain, i, es[j].order))
  }

  ghost predicate Visited(v0: Work, v1: Work, id: Id, exclude: set<nat>, es: seq<Entry>, k: nat)
    requires InThoughts(v0, es) && InThoughts(v1, es) && k <= |es|
  {
    forall j | 0 <= j < k :: Removed(v0, v1, id, exclude, es[j])
  }

  /** The error is raised only by a card left without possibilities. */
  ghost predicate ThrownRightly(v0: Work, v1: Work) {
    && (v0.thrown ==> v1.thrown)
    && (v1.thrown ==> v0.thrown || exists o :: o in v1.thoughts && v1.thoughts[o].possible == {})
  }

  /** What has been done once the cards before position k have been visited. */
  ghost predicate Progress(v0: Work, v1: Work, id: Id, exclude: set<nat>, es: seq<Entry>, k: nat) {
    && k <= |es| && InThoughts(v0, es)
    && v0.thoughts.Keys == v1.thoughts.Keys
    && v1.candidates == v0.candidates && v1.eliminated == v0.eliminated
    && Visited(v0, v1, id, exclude, es, k)
    && Untouched(v0, v1, es, k)
    && (forall o | o in v1.thoughts :: SameFacts(v1.thoughts[o], v0.thoughts[o]))
    && Grows(v0, v1, id)
    && ThrownRightly(v0, v1)
  }

  lemma GrowsStep(v0: Work, v1: Work, id: Id, o: Order)
    requires Grows(v0, v1, id) && o in v1.thoughts
    requires forall i | IsCertain(v1.certain, i, o) :: IsCertain(v0.certain, i, o)
    ensures Grows(v0, EliminateAt(v1, o, id), id)
  {
    var v2 := EliminateAt(v1, o, id);
    if v2.certain != v1.certain {
      assert TheOne(Losing(v1.thoughts[o], id).possible) != id;
    }
    forall i: Id, p: Order | IsCertain(v2.certain, i, p) && !IsCertain(v0.certain, i, p)
      ensures p in v2.thoughts && v2.thoughts[p].possible == {i}
    {
      if IsCertain(v1.certain, i, p) {
        assert p != o;
        assert v1.thoughts[p].possible == {i};
      } else {
        assert p == o;
      }
    }
  }

  lemma UntouchedStep(v0: Work, v1: Work, id: Id, es: seq<Entry>, k: nat)
    requires OrdersDistinct(es) && k < |es| && InThoughts(v0, es) && InThoughts(v1, es)
    requires Untouched(v0, v1, es, k)
    ensures v1.thoughts[es[k].order] == v0.thoughts[es[k].order]
    ensures forall i | IsCertain(v1.certain, i, es[k].order) :: IsCertain(v0.certain, i, es[k].order)
    ensures Untouched(v0, EliminateAt(v1, es[k].order, id), es, k + 1)
  {
    var v2 := EliminateAt(v1, es[k].order, id);
    forall i, j | k + 1 <= j < |es| && IsCertain(v2.certain, i, es[j].order)
      ensures IsCertain(v0.certain, i, es[j].order)
    {
      assert es[j].order != es[k].order;
      assert IsCertain(v1.certain, i, es[j].order);
    }
  }

  lemma VisitedStep(v0: Work, v1: Work, id: Id, exclude: set<nat>, es: seq<Entry>, k: nat)
    requires OrdersDistinct(es) && k < |es| && InThoughts(v0, es) && InThoughts(v1, es)
    requires Visited(v0, v1, id, exclude, es, k) && v1.thoughts[es[k].order] == v0.thoughts[es[k].order]
    requires Targeted(v0, id, exclude, es[k])
    ensures Visited(v0, EliminateAt(v1, es[k].order, id), id, exclude, es, k + 1)
  {
    var v2 := EliminateAt(v1, es[k].order, id);
    forall j | 0 <= j < k + 1
      ensures Removed(v0, v2, id, exclude, es[j])
    {
      if j < k {
        assert es[j].order != es[k].order && Removed(v0, v1, id, exclude, es[j]);
        assert v2.thoughts[es[j].order] == v1.thoughts[es[j].order];
      }
    }
  }

  lemma ThrownStep(v0: Work, v1: Work, id: Id, o: Order)
    requires ThrownRightly(v0, v1) && o in v1.thoughts
    ensures ThrownRightly(v0, EliminateAt(v1, o, id))
  {
    var v2 := EliminateAt(v1, o, id);
    if v2.thrown && !v0.thrown {
      if v1.thrown {
        var p :| p in v1.thoughts && v1.thoughts[p].possible == {};
        assert v2.thoughts[p].possible == {};
      } else {
        assert v2.thoughts[o].possible == {};
      }
    }
  }

  lemma TargetedSame(v0: Work, v1: Work, id: Id, exclude: set<nat>, e: Entry)
    requires Grows(v0, v1, id) && e.order in v0.thoughts && e.order in v1.thoughts
    requires v1.thoughts[e.order] == v0.thoughts[e.order]
    ensures Targeted(v1, id, exclude, e) == Targeted(v0, id, exclude, e)
  {
  }

  lemma ProgressStep(v0: Work, v1: Work, id: Id, exclude: set<nat>, es: seq<Entry>, k: nat)
    requires OrdersDistinct(es) && k < |es|
    requires Progress(v0, v1, id, exclude, es, k)
    requires Targeted(v1, id, exclude, es[k])
    ensures Targeted(v0, id, exclude, es[k])
    ensures Progress(v0, EliminateAt(v1, es[k].order, id), id, exclude, es, k + 1)
  {
    hide Targeted, Visited, Untouched, Grows, ThrownRightly, OrdersDistinct;
    assert es[k] in es;
    UntouchedStep(v0, v1, id, es, k);
    TargetedSame(v0, v1, id, exclude, es[k]);
    GrowsStep(v0, v1, id, es[k].order);
    VisitedStep(v0, v1, id, exclude, es, k);
    ThrownStep(v0, v1, id, es[k].order);
  }

  lemma ProgressSkip(v0: Work, v1: Work, id: Id, exclude: set<nat>, es: seq<Entry>, k: nat)
    requires k < |es| && Progress(v0, v1, id, exclude, es, k)
    requires !Targeted(v1, id, exclude, es[k])
    ensures !Targeted(v0, id, exclude, es[k])
    ensures Progress(v0, v1, id, exclude, es, k + 1)
  {
    assert es[k] in es;
    TargetedSame(v0, v1, id, exclude, es[k]);
  }

  lemma EntryOfOrder(st: State, o: Order)
    requires o in HandOrders(st)
    ensures exists k :: 0 <= k < |Entries(st)| && Entries(st)[k].order == o
  {
    var e :| e in Entries(st) && e.order == o;
    var k :| 0 <= k < |Entries(st)| && Entries(st)[k] == e;
  }

  lemma PassFits(w: Deal, v0: Work, v1: Work, id: Id, exclude: set<nat>, es: seq<Entry>, o: Order)
    requires Progress(v0, v1, id, exclude, es, |es|) && Spares(w, v0, id, exclude, es)
    requires o in v0.thoughts && o < |w| && w[o] in v0.thoughts[o].possible
    requires exists k :: 0 <= k < |es| && es[k].order == o
    ensures w[o] in v1.thoughts[o].possible
  {
    var k :| 0 <= k < |es| && es[k].order == o;
    assert es[k] in es && Removed(v0, v1, id, exclude, es[k]);
  }

  /** One deal: if it agreed before the pass and the pass spares it, it agrees afterwards. */
  lemma PassAgrees(w: Deal, st: State, v0: Work, v1: Work, id: Id, exclude: set<nat>)
    requires st.WellFormed() && v0.thoughts.Keys == HandOrders(st)
    requires Progress(v0, v1, id, exclude, Entries(st), |Entries(st)|)
    requires Agrees(w, st, v0) && Spares(w, v0, id, exclude, Entries(st))
    ensures Agrees(w, st, v1)
  {
    forall o | o in v1.thoughts
      ensures o < |w| && w[o] in v1.thoughts[o].possible
    {
      EntryOfOrder(st, o);
      PassFits(w, v0, v1, id, exclude, Entries(st), o);
    }
  }

  lemma PassKeepsOk(st: State, start: seq<Card>, v0: Work, v1: Work, id: Id, exclude: set<nat>)
    requires Ok(st, start, v0)
    requires Progress(v0, v1, id, exclude, Entries(st), |Entries(st)|)
    ensures Ok(st, start, v1)
  {
    forall i | i in v1.certain
      ensures v1.certain[i].Keys <= HandOrders(st)
    {
      forall o | o in v1.certain[i]
        ensures o in HandOrders(st)
      {
        if IsCertain(v0.certain, i, o) { assert o in v0.certain[i].Keys; }
      }
    }
  }

  lemma PassShrinks(v0: Work, v1: Work, id: Id, exclude: set<nat>, es: seq<Entry>)
    requires Progress(v0, v1, id, exclude, es, |es|)
    requires exists e :: e in es && Targeted(v0, id, exclude, e)
    ensures Size(v1, es) < Size(v0, es)
  {
    var e :| e in es && Targeted(v0, id, exclude, e);
    var k :| 0 <= k < |es| && es[k] == e;
    assert Removed(v0, v1, id, exclude, es[k]);
    assert v1.thoughts[e.order].possible < v0.thoughts[e.order].possible;
    SizeShrinks(v0, v1, es);
  }

  lemma PassSound(st: State, start: seq<Card>, v0: Work, v1: Work, id: Id, exclude: set<nat>)
    requires Ok(st, start, v0) && Sound(st, start, v0)
    requires NoneElsewhere(st, start, v0, id, exclude)
    requires Progress(v0, v1, id, exclude, Entries(st), |Entries(st)|)
    ensures Ok(st, start, v1) && Sound(st, start, v1)
  {
    PassKeepsOk(st, start, v0, v1, id, exclude);
    forall w | Consistent(w, st, start)
      ensures Agrees(w, st, v1)
    {
      assert Spares(w, v0, id, exclude, Entries(st));
      PassAgrees(w, st, v0, v1, id, exclude);
    }
  }

  /** Identities that were possible somewhere are identities of the variant. */
  lemma PossibleValid(st: State, start: seq<Card>, v: Work, ids: seq<Id>)
    requires Ok(st, start, v) && forall i | i in ids :: exists o :: o in v.thoughts && i in v.thoughts[o].possible
    ensures forall i | i in ids :: st.ValidId(i)
  {
  }

  /** The whole of update_map: the pass, then dropping resolved candidates. */
  lemma FinishPass(st: State, start: seq<Card>, v0: Work, v1: Work, id: Id, exclude: set<nat>, removals: set<Order>)
    requires Ok(st, start, v0) && Sound(st, start, v0)
    requires NoneElsewhere(st, start, v0, id, exclude)
    requires Progress(v0, v1, id, exclude, Entries(st), |Entries(st)|)
    ensures var v2 := v1.(candidates := Without(v1.candidates, removals));
            && Ok(st, start, v2) && Sound(st, start, v2) && Refines(v0, v2)
            && (forall e | e in Entries(st) :: Removed(v0, v2, id, exclude, e))
            && ((exists e :: e in Entries(st) && Targeted(v0, id, exclude, e)) ==>
                  Steps(v0, v2, Entries(st)) && Size(v2, Entries(st)) < Size(v0, Entries(st)))
  {
    var v2 := v1.(candidates := Without(v1.candidates, removals));
    PassSound(st, start, v0, v1, id, exclude);
    WithoutOk(st, v1.candidates, removals);
    WithoutThins(v1.candidates, removals);
    assert Sound(st, start, v2) by {
      forall w | Consistent(w, st, start)
        ensures Agrees(w, st, v2)
      {
        assert Agrees(w, st, v1);
      }
    }
    forall e | e in Entries(st)
      ensures Removed(v0, v2, id, exclude, e)
    {
      var k :| 0 <= k < |Entries(st)| && Entries(st)[k] == e;
      assert Removed(v0, v1, id, exclude, Entries(st)[k]);
    }
    if exists e :: e in Entries(st) && Targeted(v0, id, exclude, e) {
      PassShrinks(v0, v1, id, exclude, Entries(st));
      SameSize(v1, v2, Entries(st));
    }
  }

  lemma {:induction false} SameSize(v0: Work, v1: Work, es: seq<Entry>)
    requires v0.thoughts == v1.thoughts
    ensures Size(v0, es) == Size(v1, es)
  {
    if es != [] {
      SameSize(v0, v1, es[1..]);
    }
  }

  lemma OkBasics(st: State, start: seq<Card>, v: Work)
    requires Ok(st, start, v)
    ensures st.WellFormed() && OrdersDistinct(Entries(st)) && InThoughts(v, Entries(st))
    ensures forall o, i | o in v.thoughts && i in v.thoughts[o].possible :: st.ValidId(i)
    ensures ThoughtsCover(st, start)
    ensures forall o, i | o in HandOrders(st) && i in start[o].possible :: st.ValidId(i)
  {
  }

  // ----- Licences for update_map -----

  function CertainOrders(m: CertainMap, id: Id): set<Order> {
    if id in m then m[id].Keys else {}
  }

  /** basic_elim: every copy of id is on a stack or certain. */
  predicate AllKnown(st: State, v: Work, id: Id)
    requires st.WellFormed()
  {
    st.BaseCount(id) + |CertainOrders(v.certain, id)| == st.CardCount(id)
  }

  lemma CertainOrdersHeld(w: Deal, st: State, start: seq<Card>, v: Work, id: Id)
    requires Ok(st, start, v) && Agrees(w, st, v)
    ensures CertainOrders(v.certain, id) <= Held(w, st, id)
  {
    forall o | o in CertainOrders(v.certain, id)
      ensures o in Held(w, st, id)
    {
      assert IsCertain(v.certain, id, o);
    }
  }

  /** When all copies are accounted for, a consistent deal has no other held copy. */
  lemma AllKnownExact(w: Deal, st: State, start: seq<Card>, v: Work, id: Id)
    requires Ok(st, start, v) && Agrees(w, st, v) && RespectsCounts(w, st)
    requires st.ValidId(id) && AllKnown(st, v, id)
    ensures Held(w, st, id) == CertainOrders(v.certain, id)
  {
    CertainOrdersHeld(w, st, start, v, id);
    SaturationOne(w, st, id, CertainOrders(v.certain, id));
  }

  lemma BasicSpares(w: Deal, st: State, start: seq<Card>, v: Work, id: Id)
    requires Ok(st, start, v) && Consistent(w, st, start)
    requires Held(w, st, id) == CertainOrders(v.certain, id)
    ensures Spares(w, v, id, {}, Entries(st))
  {
    forall e | e in Entries(st) && Targeted(v, id, {}, e)
      ensures e.order < |w| && w[e.order] != id
    {
      assert e.order in HandOrders(st);
      assert e.order !in Held(w, st, id);
    }
  }

  lemma EliminatedOk(st: State, start: seq<Card>, v: Work, id: Id)
    requires Ok(st, start, v)
    ensures Ok(st, start, v.(eliminated := v.eliminated + {id})) && InThoughts(v, Entries(st))
  {
  }

  lemma BasicLicence(st: State, start: seq<Card>, v: Work, id: Id)
    requires Ok(st, start, v) && Sound(st, start, v) && st.ValidId(id) && AllKnown(st, v, id)
    ensures var r := v.(eliminated := v.eliminated + {id});
            NoneElsewhere(st, start, r, id, {}) && Ok(st, start, r) && Sound(st, start, r)
  {
    hide Ok;
    var r := v.(eliminated := v.eliminated + {id});
    EliminatedOk(st, start, v, id);
    forall w | Consistent(w, st, start)
      ensures Agrees(w, st, r) && Spares(w, r, id, {}, Entries(st))
    {
      assert Agrees(w, st, v);
      AllKnownExact(w, st, start, v, id);
      BasicSpares(w, st, start, r, id);
    }
  }

  lemma RefinesReflexive(v: Work)
    ensures Refines(v, v)
  {
    forall j | 0 <= j < |v.candidates|
      ensures FromLater(v.candidates, j, v.candidates[j])
    {
    }
  }

  /** Nothing but the list of exhausted identities changes unless a possibility is lost. */
  ghost predicate Calm(v0: Work, v1: Work, es: seq<Entry>) {
    Size(v1, es) == Size(v0, es) ==> v1 == v0.(eliminated := v1.eliminated)
  }

  /** The relation between the working states before and after any part of `card_elim`. */
  ghost predicate Steps(v0: Work, v1: Work, es: seq<Entry>) {
    Refines(v0, v1) && Calm(v0, v1, es)
  }

  lemma Chain(v0: Work, v1: Work, v2: Work, es: seq<Entry>)
    requires Steps(v0, v1, es) && Steps(v1, v2, es)
    ensures Steps(v0, v2, es)
    ensures Size(v2, es) <= Size(v1, es) <= Size(v0, es)
  {
    RefinesTransitive(v0, v1, v2);
    SizeShrinks(v0, v1, es);
    SizeShrinks(v1, v2, es);
  }

  lemma StepsReflexive(v: Work, es: seq<Entry>)
    ensures Steps(v, v, es)
  {
    RefinesReflexive(v);
  }

  lemma StepsUse(v0: Work, v1: Work, es: seq<Entry>)
    requires Steps(v0, v1, es)
    ensures Refines(v0, v1) && Size(v1, es) <= Size(v0, es)
    ensures Size(v1, es) == Size(v0, es) ==> v1 == v0.(eliminated := v1.eliminated)
  {
    SizeShrinks(v0, v1, es);
  }

  lemma StepsFiltered(v0: Work, v1: Work, removals: set<Order>, es: seq<Entry>)
    requires Steps(v0, v1, es)
    requires Refines(v1, v1.(candidates := Without(v1.candidates, removals)))
    requires removals == {} || Size(v1, es) < Size(v0, es)
    ensures Steps(v0, v1.(candidates := Without(v1.candidates, removals)), es)
  {
    RefinesTransitive(v0, v1, v1.(candidates := Without(v1.candidates, removals)));
    SameSize(v1, v1.(candidates := Without(v1.candidates, removals)), es);
    WithoutNothing(v1.candidates);
  }

  lemma StepsEliminated(v: Work, id: Id, es: seq<Entry>)
    ensures Steps(v, v.(eliminated := v.eliminated + {id}), es)
  {
    RefinesReflexive(v);
  }

  lemma OkCovers(st: State, start: seq<Card>, v: Work, o: Order)
    requires Ok(st, start, v) && o in HandOrders(st)
    ensures o in v.thoughts && o < |st.deck| && o < |start|
  {
  }

  predicate HandCovered(st: State, thoughts: map<Order, Card>, hand: seq<Order>) {
    forall o | o in hand :: o in thoughts && o < |st.deck|
  }

  lemma OkCoversHands(st: State, start: seq<Card>, v: Work)
    requires Ok(st, start, v)
    ensures forall i | 0 <= i < |st.hands| :: HandCovered(st, v.thoughts, st.hands[i])
  {
    forall i, o | 0 <= i < |st.hands| && o in st.hands[i]
      ensures o in v.thoughts && o < |st.deck|
    {
      assert Entry(o, i) in Entries(st);
      OkCovers(st, start, v, o);
    }
  }

  // ----- What basic_elim achieves -----

  ghost predicate Feasible(st: State, start: seq<Card>)
    requires st.WellFormed()
  {
    exists w: Deal :: Consistent(w, st, start)
  }

  /** i is recorded as exhausted and gone from every card that could lose it in v0. */
  ghost predicate Cleared(st: State, v0: Work, v1: Work, i: Id) {
    && i in v1.eliminated
    && forall e | e in Entries(st) && e.order in v0.thoughts && e.order in v1.thoughts && Targeted(v0, i, {}, e)
         :: i !in v1.thoughts[e.order].possible
  }

  ghost predicate AllCleared(st: State, v0: Work, v1: Work, ids: seq<Id>)
    requires st.WellFormed()
  {
    forall i | i in ids && AllKnown(st, v0, i) :: Cleared(st, v0, v1, i)
  }

  /** An identity that is fully accounted for stays exactly so while some deal is possible. */
  lemma AllKnownStays(st: State, start: seq<Card>, v0: Work, v1: Work, i: Id)
    requires Ok(st, start, v1) && Sound(st, start, v1) && Refines(v0, v1) && st.ValidId(i)
    requires Feasible(st, start) && AllKnown(st, v0, i)
    ensures AllKnown(st, v1, i) && CertainOrders(v1.certain, i) == CertainOrders(v0.certain, i)
  {
    var w: Deal :| Consistent(w, st, start);
    assert Agrees(w, st, v1);
    CertainOrdersHeld(w, st, start, v1, i);
    SubsetCardinality(CertainOrders(v1.certain, i), Held(w, st, i));
    SubsetCardinality(CertainOrders(v0.certain, i), CertainOrders(v1.certain, i));
  }

  lemma ClearedNow(st: State, v0: Work, v1: Work, v2: Work, i: Id)
    requires Refines(v0, v1) && v1.thoughts.Keys == v2.thoughts.Keys
    requires CertainOrders(v1.certain, i) == CertainOrders(v0.certain, i) && i in v2.eliminated
    requires forall e | e in Entries(st) && e.order in v1.thoughts :: Removed(v1, v2, i, {}, e)
    ensures Cleared(st, v0, v2, i)
  {
    forall e | e in Entries(st) && e.order in v0.thoughts && e.order in v2.thoughts && Targeted(v0, i, {}, e)
      ensures i !in v2.thoughts[e.order].possible
    {
      assert e.order !in CertainOrders(v0.certain, i);
      assert Removed(v1, v2, i, {}, e);
    }
  }

  lemma ClearedStays(st: State, v0: Work, v1: Work, v2: Work, ids: seq<Id>)
    requires st.WellFormed() && AllCleared(st, v0, v1, ids) && Refines(v0, v1) && Refines(v1, v2)
    ensures AllCleared(st, v0, v2, ids)
  {
  }

  lemma AllClearedMore(st: State, v0: Work, v1: Work, ids: seq<Id>, i: Id)
    requires st.WellFormed() && AllCleared(st, v0, v1, ids)
    requires AllKnown(st, v0, i) ==> Cleared(st, v0, v1, i)
    ensures AllCleared(st, v0, v1, ids + [i])
  {
  }

  // ----- The working state that card_elim starts from -----

  /** The certainties read off the first k cards in hands. */
  function InitialCertain(start: seq<Card>, common: bool, es: seq<Entry>, k: nat): CertainMap
    requires k <= |es| && forall e | e in es :: e.order < |start|
  {
    if k == 0 then map[] else
    var m := InitialCertain(start, common, es, k - 1);
    var e := es[k - 1];
    assert e in es;
    var id := start[e.order].Identity(common);
    if id.None? then m
    else InsertCertain(m, id.value, e.order, if start[e.order].Identity(true).None? then {e.player} else {})
  }

  /** Cards worth trying in a naked subset. */
  predicate IsCandidate(st: State, card: Card)
    requires st.WellFormed()
  {
    && |card.possible| > 1
    && (exists i | i in card.possible :: !st.BasicTrash(i))
    && (|card.possible| < 5 || card.clued)
  }

  function StartThoughts(st: State, start: seq<Card>): map<Order, Card>
    requires ThoughtsCover(st, start)
  {
    map o | o in HandOrders(st) :: start[o]
  }

  lemma CoversEntries(st: State, start: seq<Card>)
    requires ThoughtsCover(st, start)
    ensures forall e | e in Entries(st) :: e.order < |start|
  {
    assert forall e | e in Entries(st) :: e.order in HandOrders(st);
  }

  function InitialWork(st: State, start: seq<Card>, common: bool, k: nat, candidates: seq<Entry>): Work
    requires k <= |Entries(st)| && ThoughtsCover(st, start)
  {
    CoversEntries(st, start);
    Work(StartThoughts(st, start), InitialCertain(start, common, Entries(st), k), candidates, {}, false)
  }

  lemma InitialWorkStep(st: State, start: seq<Card>, common: bool, k: nat, candidates: seq<Entry>)
    requires k < |Entries(st)| && ThoughtsCover(st, start)
    requires Ok(st, start, InitialWork(st, start, common, k, candidates))
    requires Sound(st, start, InitialWork(st, start, common, k, candidates))
    requires forall c | c in candidates :: c in Entries(st)[..k]
    ensures Ok(st, start, InitialWork(st, start, common, k + 1, candidates))
    ensures Sound(st, start, InitialWork(st, start, common, k + 1, candidates))
    ensures Ok(st, start, InitialWork(st, start, common, k + 1, candidates + [Entries(st)[k]]))
    ensures Sound(st, start, InitialWork(st, start, common, k + 1, candidates + [Entries(st)[k]]))
  {
    var v0 := InitialWork(st, start, common, k, candidates);
    var v1 := InitialWork(st, start, common, k + 1, candidates);
    var v2 := InitialWork(st, start, common, k + 1, candidates + [Entries(st)[k]]);
    InitialOk(st, start, common, k, candidates);
    hide Ok;
    forall w | Consistent(w, st, start)
      ensures Agrees(w, st, v1) && Agrees(w, st, v2)
    {
      assert Agrees(w, st, v0);
      InitialAgrees(w, st, start, common, k, candidates);
    }
  }

  lemma InitialOk(st: State, start: seq<Card>, common: bool, k: nat, candidates: seq<Entry>)
    requires k < |Entries(st)| && ThoughtsCover(st, start)
    requires Ok(st, start, InitialWork(st, start, common, k, candidates))
    requires forall c | c in candidates :: c in Entries(st)[..k]
    ensures Ok(st, start, InitialWork(st, start, common, k + 1, candidates))
    ensures Ok(st, start, InitialWork(st, start, common, k + 1, candidates + [Entries(st)[k]]))
  {
    hide EntriesFrom, InitialCertain;
    CoversEntries(st, start);
    CandidatesMore(st, candidates, k);
    CertainHeld(st, start, common, k);
  }

  lemma CandidatesMore(st: State, cs: seq<Entry>, k: nat)
    requires k < |Entries(st)| && CandidatesOk(st, cs) && DistinctOrders(st) && forall c | c in cs :: c in Entries(st)[..k]
    ensures CandidatesOk(st, cs + [Entries(st)[k]])
  {
    hide EntriesFrom;
    forall c | c in cs
      ensures c.order != Entries(st)[k].order
    {
      var j :| 0 <= j < k && Entries(st)[j] == c;
    }
  }

  ghost predicate OnlyHeld(st: State, m: CertainMap) {
    forall i | i in m :: m[i].Keys <= HandOrders(st)
  }

  lemma CertainHeld(st: State, start: seq<Card>, common: bool, k: nat)
    requires k < |Entries(st)| && ThoughtsCover(st, start) && forall e | e in Entries(st) :: e.order < |start|
    requires OnlyHeld(st, InitialCertain(start, common, Entries(st), k))
    ensures OnlyHeld(st, InitialCertain(start, common, Entries(st), k + 1))
  {
    hide EntriesFrom, InitialCertain;
    var es := Entries(st);
    InitialCertainStep(start, common, es, k);
    var (m0, m1) := (InitialCertain(start, common, es, k), InitialCertain(start, common, es, k + 1));
    assert es[k] in es && es[k].order in HandOrders(st);
    forall i, o | i in m1 && o in m1[i]
      ensures o in HandOrders(st)
    {
      assert IsCertain(m1, i, o);
      if IsCertain(m0, i, o) { assert o in m0[i].Keys; }
    }
  }

  lemma InitialAgrees(w: Deal, st: State, start: seq<Card>, common: bool, k: nat, candidates: seq<Entry>)
    requires k < |Entries(st)| && st.WellFormed() && Consistent(w, st, start)
    requires Agrees(w, st, InitialWork(st, start, common, k, candidates))
    ensures Agrees(w, st, InitialWork(st, start, common, k + 1, candidates))
    ensures Agrees(w, st, InitialWork(st, start, common, k + 1, candidates + [Entries(st)[k]]))
  {
    var e := Entries(st)[k];
    assert e in Entries(st) && e.order in HandOrders(st);
    assert AgreesWithCard(w[e.order], st.deck[e.order], start[e.order]);
    if start[e.order].Identity(common).Some? {
      IdentityRight(w[e.order], st.deck[e.order], start[e.order], common);
    }
  }

  /** Clearing what could be cleared later also clears what could be cleared earlier. */
  lemma ClearedFromEarlier(st: State, start: seq<Card>, v0: Work, v1: Work, v2: Work, i: Id)
    requires Ok(st, start, v1) && Sound(st, start, v1) && Refines(v0, v1) && Refines(v1, v2)
    requires Feasible(st, start) && st.ValidId(i) && AllKnown(st, v0, i)
    requires AllKnown(st, v1, i) ==> Cleared(st, v1, v2, i)
    ensures Cleared(st, v0, v2, i)
  {
    AllKnownStays(st, start, v0, v1, i);
    hide Ok, Sound;
    forall e | e in Entries(st) && e.order in v0.thoughts && e.order in v2.thoughts && Targeted(v0, i, {}, e)
      ensures i !in v2.thoughts[e.order].possible
    {
      assert e.order !in CertainOrders(v1.certain, i);
      assert i in v1.thoughts[e.order].possible ==> Targeted(v1, i, {}, e);
    }
  }

  lemma InitialCertainStep(start: seq<Card>, common: bool, es: seq<Entry>, k: nat)
    requires k < |es| && forall e | e in es :: e.order < |start|
    ensures es[k] in es
    ensures var card := start[es[k].order];
            InitialCertain(start, common, es, k + 1) ==
              if card.Identity(common).None? then InitialCertain(start, common, es, k)
              else InsertCertain(InitialCertain(start, common, es, k), card.Identity(common).value, es[k].order,
                                 if card.Identity(true).None? then {es[k].player} else {})
  {
  }

  /** The cards worth trying among the first k in hands, in order. */
  function CandidatesUpTo(st: State, start: seq<Card>, k: nat): seq<Entry>
    requires st.WellFormed() && ThoughtsCover(st, start) && k <= |Entries(st)|
  {
    CoversEntries(st, start);
    if k == 0 then []
    else
      assert Entries(st)[k - 1] in Entries(st);
      CandidatesUpTo(st, start, k - 1) + if IsCandidate(st, start[Entries(st)[k - 1].order]) then [Entries(st)[k - 1]] else []
  }

  lemma {:induction false} CandidatesFirst(st: State, start: seq<Card>, k: nat)
    requires st.WellFormed() && ThoughtsCover(st, start) && k <= |Entries(st)|
    ensures forall c | c in CandidatesUpTo(st, start, k) :: c in Entries(st)[..k]
    ensures forall c | c in Entries(st)[..k] ::
              c.order < |start| && (c in CandidatesUpTo(st, start, k) <==> IsCandidate(st, start[c.order]))
  {
    hide IsCandidate, EntriesFrom, HandOrders;
    CoversEntries(st, start);
    if k > 0 {
      CandidatesFirst(st, start, k - 1);
      assert Entries(st)[..k] == Entries(st)[..k - 1] + [Entries(st)[k - 1]];
      assert Entries(st)[k - 1] in Entries(st);
      forall c | c in Entries(st)[..k]
        ensures c.order < |start| && (c in CandidatesUpTo(st, start, k) <==> IsCandidate(st, start[c.order]))
      {
        assert c in Entries(st);
      }
    }
  }

  lemma {:induction false} CandidatesInOrder(st: State, start: seq<Card>, k: nat)
    requires st.WellFormed() && ThoughtsCover(st, start) && DistinctOrders(st) && k <= |Entries(st)|
    ensures OrdersDistinct(CandidatesUpTo(st, start, k))
  {
    if k > 0 {
      CandidatesInOrder(st, start, k - 1);
      CandidatesFirst(st, start, k - 1);
      forall c | c in CandidatesUpTo(st, start, k - 1)
        ensures c.order != Entries(st)[k - 1].order
      {
        var j :| 0 <= j < k - 1 && Entries(st)[j] == c;
      }
    }
  }

  /** The working state once the opening loop has found the certainties and the candidates. */
  ghost function CandidateWork(st: State, start: seq<Card>, common: bool): Work
    requires st.WellFormed() && ThoughtsCover(st, start)
  {
    InitialWork(st, start, common, |Entries(st)|, CandidatesUpTo(st, start, |Entries(st)|))
  }

  /** The candidates are exactly the held cards worth trying. */
  lemma CandidatesAre(st: State, start: seq<Card>)
    requires st.WellFormed() && ThoughtsCover(st, start) && DistinctOrders(st)
    ensures var cs := CandidatesUpTo(st, start, |Entries(st)|);
            && OrdersDistinct(cs) && (forall c | c in cs :: c in Entries(st))
            && forall c | c in Entries(st) :: c.order < |start| && (c in cs <==> IsCandidate(st, start[c.order]))
  {
    CandidatesFirst(st, start, |Entries(st)|);
    CandidatesInOrder(st, start, |Entries(st)|);
    assert Entries(st)[..|Entries(st)|] == Entries(st);
  }

  /** The state that card_elim's first pass starts from. */
  ghost function StartWork(st: State, start: seq<Card>, common: bool): Work
    requires ThoughtsCover(st, start)
  {
    InitialWork(st, start, common, |Entries(st)|, [])
  }

  /** card_elim clears every identity whose copies are all accounted for at the start. */
  lemma RunClears(st: State, start: seq<Card>, common: bool, v0: Work, v1: Work, v2: Work, v3: Work, ids: seq<Id>)
    requires ThoughtsCover(st, start) && v0 == InitialWork(st, start, common, |Entries(st)|, v0.candidates)
    requires Ok(st, start, v1) && Sound(st, start, v1)
    requires Steps(v0, v1, Entries(st)) && Steps(v1, v2, Entries(st)) && Steps(v2, v3, Entries(st))
    requires Feasible(st, start) ==> AllCleared(st, v1, v2, ids)
    requires forall i | i in ids :: st.ValidId(i)
    ensures Feasible(st, start) ==>
              forall i | i in ids && AllKnown(st, StartWork(st, start, common), i)
                :: Cleared(st, StartWork(st, start, common), v3, i)
  {
    if Feasible(st, start) {
      Chain(v1, v2, v3, Entries(st));
      ClearedStays(st, v1, v2, v3, ids);
      hide Ok, Sound, InitialWork, InitialCertain, Consistent;
      forall i | i in ids && AllKnown(st, StartWork(st, start, common), i)
        ensures Cleared(st, StartWork(st, start, common), v3, i)
      {
        StartWorkAlike(st, start, common, v0, v3, i);
        ClearedFromEarlier(st, start, v0, v1, v3, i);
      }
    }
  }

  lemma StartWorkAlike(st: State, start: seq<Card>, common: bool, v0: Work, v1: Work, i: Id)
    requires st.WellFormed() && ThoughtsCover(st, start)
    requires v0 == InitialWork(st, start, common, |Entries(st)|, v0.candidates)
    ensures AllKnown(st, StartWork(st, start, common), i) == AllKnown(st, v0, i)
    ensures Cleared(st, StartWork(st, start, common), v1, i) == Cleared(st, v0, v1, i)
  {
    assert forall e: Entry | e.order in v0.thoughts ::
      Targeted(StartWork(st, start, common), i, {}, e) == Targeted(v0, i, {}, e);
  }
}
