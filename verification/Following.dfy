// What `basic_elim` of src/basics/player-elim.js does with cards that an elimination leaves with one identity: they count
// as copies of it, and if that accounts for all copies the identity is eliminated in turn.
module Following {
  import opened Cards
  import opened GameState
  import opened Beliefs
  import opened Elimination
  import opened NakedSubsets

  /** Losing id leaves the card with one identity, and its inferences need no reset. */
  predicate Resolved(c: Card, id: Id) {
    |c.possible - {id}| == 1 && !(c.inferred - {id} == {} && !c.reset)
  }

  /** A pass over the first k cards leaves this one with i alone. */
  predicate TurnsInto(v: Work, id: Id, exclude: set<nat>, e: Entry, i: Id) {
    e.order in v.thoughts && Targeted(v, id, exclude, e) && Resolved(v.thoughts[e.order], id) && i != id && i in v.thoughts[e.order].possible
  }

  /** The first k cards that a pass leaves with one identity. */
  ghost function ResolvedUpTo(v: Work, id: Id, exclude: set<nat>, es: seq<Entry>, k: nat): set<Order>
    requires k <= |es|
  {
    set j | 0 <= j < k && es[j].order in v.thoughts && Targeted(v, id, exclude, es[j]) && Resolved(v.thoughts[es[j].order], id) :: es[j].order
  }

  ghost predicate FoundAs(v: Work, found: seq<Id>, o: Order, i: Id) {
    i in found && IsCertain(v.certain, i, o)
  }

  /** The identities that a pass over the first k cards makes known, and what is recorded of them. */
  ghost predicate Discovered(v0: Work, v1: Work, id: Id, exclude: set<nat>, es: seq<Entry>, k: nat, found: seq<Id>) {
    && k <= |es|
    && (forall i | i in found :: exists j :: 0 <= j < k && TurnsInto(v0, id, exclude, es[j], i))
    && (forall j, i | 0 <= j < k && TurnsInto(v0, id, exclude, es[j], i) :: FoundAs(v1, found, es[j].order, i))
  }

  lemma DiscoveredMore(v0: Work, v1: Work, v2: Work, id: Id, exclude: set<nat>, es: seq<Entry>, k: nat, found: seq<Id>, only: Option<Id>)
    requires k < |es| && Discovered(v0, v1, id, exclude, es, k, found)
    requires forall i, o | IsCertain(v1.certain, i, o) :: IsCertain(v2.certain, i, o)
    requires forall i :: TurnsInto(v0, id, exclude, es[k], i) <==> only == Some(i)
    requires only.Some? ==> IsCertain(v2.certain, only.value, es[k].order)
    ensures Discovered(v0, v2, id, exclude, es, k + 1, if only.Some? then found + [only.value] else found)
  {
    hide TurnsInto;
    var more := if only.Some? then found + [only.value] else found;
    forall i | i in more
      ensures exists j :: 0 <= j < k + 1 && TurnsInto(v0, id, exclude, es[j], i)
    {
      if i !in found { assert TurnsInto(v0, id, exclude, es[k], i); }
    }
    forall j, i | 0 <= j < k + 1 && TurnsInto(v0, id, exclude, es[j], i)
      ensures FoundAs(v2, more, es[j].order, i)
    {
      if j == k {
        assert only == Some(i) && more[|found|] == i;
      } else {
        assert FoundAs(v1, found, es[j].order, i);
      }
    }
  }

  /** What one card turns into, if anything. */
  lemma TurnsIntoOne(v: Work, id: Id, exclude: set<nat>, e: Entry, only: Option<Id>)
    requires e.order in v.thoughts && Targeted(v, id, exclude, e)
    requires only.Some? <==> Resolved(v.thoughts[e.order], id)
    requires only.Some? ==> v.thoughts[e.order].possible - {id} == {only.value}
    ensures forall i :: TurnsInto(v, id, exclude, e, i) <==> only == Some(i)
  {
    forall i
      ensures TurnsInto(v, id, exclude, e, i) <==> only == Some(i)
    {
      if only.Some? {
        assert i in v.thoughts[e.order].possible - {id} <==> i == only.value;
      }
    }
  }

  /** The loop of update_map skips a card. */
  lemma PassSkips(v0: Work, v1: Work, id: Id, exclude: set<nat>, es: seq<Entry>, k: nat, found: seq<Id>)
    requires OrdersDistinct(es) && InThoughts(v0, es) && InThoughts(v1, es) && k < |es| && !Targeted(v0, id, exclude, es[k])
    requires v1.thoughts[es[k].order] == v0.thoughts[es[k].order]
    requires Discovered(v0, v1, id, exclude, es, k, found) && OthersKept(v0, v1, id, exclude, es, k)
    ensures Discovered(v0, v1, id, exclude, es, k + 1, found) && OthersKept(v0, v1, id, exclude, es, k + 1)
    ensures ResolvedUpTo(v0, id, exclude, es, k + 1) == ResolvedUpTo(v0, id, exclude, es, k)
  {
    hide Targeted, Resolved;
    DiscoveredMore(v0, v1, v1, id, exclude, es, k, found, None);
  }

  /** The loop of update_map takes id from a card. */
  lemma PassTakes(v0: Work, v1: Work, id: Id, exclude: set<nat>, es: seq<Entry>, k: nat, found: seq<Id>, only: Option<Id>)
    requires OrdersDistinct(es) && InThoughts(v0, es) && InThoughts(v1, es) && k < |es| && Targeted(v0, id, exclude, es[k])
    requires v1.thoughts[es[k].order] == v0.thoughts[es[k].order]
    requires only.Some? <==> Resolved(v0.thoughts[es[k].order], id)
    requires only.Some? ==> v0.thoughts[es[k].order].possible - {id} == {only.value}
    requires Discovered(v0, v1, id, exclude, es, k, found) && OthersKept(v0, v1, id, exclude, es, k)
    ensures var v2 := EliminateAt(v1, es[k].order, id);
            && Discovered(v0, v2, id, exclude, es, k + 1, if only.Some? then found + [only.value] else found)
            && OthersKept(v0, v2, id, exclude, es, k + 1)
    ensures ResolvedUpTo(v0, id, exclude, es, k + 1) ==
              ResolvedUpTo(v0, id, exclude, es, k) + if only.Some? then {es[k].order} else {}
  {
    var v2 := EliminateAt(v1, es[k].order, id);
    assert only.Some? ==> IsCertain(v2.certain, only.value, es[k].order);
    assert forall i, o | IsCertain(v1.certain, i, o) :: IsCertain(v2.certain, i, o);
    assert forall o | o in v1.thoughts && o != es[k].order :: v2.thoughts[o] == v1.thoughts[o];
    hide Targeted, Resolved, EliminateAt;
    TurnsIntoOne(v0, id, exclude, es[k], only);
    DiscoveredMore(v0, v1, v2, id, exclude, es, k, found, only);
  }

  lemma FoundWerePossible(v0: Work, v1: Work, id: Id, exclude: set<nat>, es: seq<Entry>, found: seq<Id>)
    requires Discovered(v0, v1, id, exclude, es, |es|, found)
    ensures forall i | i in found :: exists o :: o in v0.thoughts && i in v0.thoughts[o].possible
  {
    forall i | i in found
      ensures exists o :: o in v0.thoughts && i in v0.thoughts[o].possible
    {
      var j :| 0 <= j < |es| && TurnsInto(v0, id, exclude, es[j], i);
    }
  }

  lemma ProgressFirst(v: Work, id: Id, exclude: set<nat>, es: seq<Entry>)
    requires InThoughts(v, es)
    ensures Progress(v, v, id, exclude, es, 0)
  {
  }

  /** The next card of the pass is as it was at first. */
  lemma ProgressCard(v0: Work, v1: Work, id: Id, exclude: set<nat>, es: seq<Entry>, k: nat)
    requires Progress(v0, v1, id, exclude, es, k) && k < |es| && OrdersDistinct(es)
    ensures InThoughts(v0, es) && InThoughts(v1, es) && v1.thoughts[es[k].order] == v0.thoughts[es[k].order]
    ensures Targeted(v1, id, exclude, es[k]) == Targeted(v0, id, exclude, es[k])
  {
    assert es[k] in es;
    TargetedSame(v0, v1, id, exclude, es[k]);
  }

  lemma NothingYet(v: Work, id: Id, exclude: set<nat>, es: seq<Entry>)
    ensures Discovered(v, v, id, exclude, es, 0, []) && OthersKept(v, v, id, exclude, es, 0) && ResolvedUpTo(v, id, exclude, es, 0) == {}
  {
  }

  /** What else a pass leaves behind: the identities found, the cards not touched, and the candidates dropped. */
  ghost predicate PassLeft(v0: Work, v1: Work, id: Id, exclude: set<nat>, es: seq<Entry>, found: seq<Id>) {
    && Discovered(v0, v1, id, exclude, es, |es|, found) && OthersKept(v0, v1, id, exclude, es, |es|)
    && v1.candidates == Without(v0.candidates, ResolvedUpTo(v0, id, exclude, es, |es|))
  }

  lemma PassLeaves(v0: Work, v1: Work, id: Id, exclude: set<nat>, es: seq<Entry>, found: seq<Id>, removals: set<Order>)
    requires Discovered(v0, v1, id, exclude, es, |es|, found) && OthersKept(v0, v1, id, exclude, es, |es|)
    requires removals == ResolvedUpTo(v0, id, exclude, es, |es|) && v1.candidates == v0.candidates
    ensures PassLeft(v0, v1.(candidates := Without(v1.candidates, removals)), id, exclude, es, found)
  {
    hide TurnsInto, Targeted, Resolved, ResolvedUpTo;
  }

  /** The first k cards of a hand that losing id leaves with one identity. */
  ghost function HandResolved(v: Work, hand: seq<Order>, id: Id, k: nat): set<Order>
    requires k <= |hand|
  {
    set j | 0 <= j < k && hand[j] in v.thoughts && id in v.thoughts[hand[j]].possible && Resolved(v.thoughts[hand[j]], id) :: hand[j]
  }

  lemma HandResolvedNext(v: Work, hand: seq<Order>, id: Id, k: nat)
    requires k < |hand| && hand[k] in v.thoughts
    ensures HandResolved(v, hand, id, k + 1) ==
              HandResolved(v, hand, id, k) + if id in v.thoughts[hand[k]].possible && Resolved(v.thoughts[hand[k]], id) then {hand[k]} else {}
  {
    hide Resolved;
  }

  lemma HandResolvedFirst(v: Work, hand: seq<Order>, id: Id)
    ensures HandResolved(v, hand, id, 0) == {}
  {
  }

  // ----- Eliminations that follow from others -----

  /** Losing id leaves the card with i. */
  ghost predicate Resolving(st: State, v: Work, id: Id, i: Id, e: Entry) {
    && e in Entries(st) && e.order in v.thoughts && Targeted(v, id, {}, e) && i != id
    && v.thoughts[e.order].possible == {id, i} && Resolved(v.thoughts[e.order], id)
  }

  /** With this card, all copies of i are accounted for. */
  ghost predicate Completes(st: State, v: Work, i: Id, o: Order)
    requires st.WellFormed()
  {
    st.BaseCount(i) + |CertainOrders(v.certain, i) + {o}| == st.CardCount(i)
  }

  /** Where a card that loses id is the last copy of what it is left with, no other card has kept that. */
  ghost predicate Followed(st: State, v0: Work, v1: Work, id: Id)
    requires st.WellFormed()
  {
    forall i, e, f | Resolving(st, v0, id, i, e) && Completes(st, v0, i, e.order) && f in Entries(st) && f.order != e.order
                     && f.order in v0.thoughts && f.order in v1.thoughts && Targeted(v0, i, {}, f)
      :: i !in v1.thoughts[f.order].possible
  }

  /** The cards that wait for one of the identities from k on are as they were. */
  ghost predicate Waiting(st: State, v0: Work, v1: Work, ids: seq<Id>, k: nat)
    requires st.WellFormed()
  {
    forall j, e, i | k <= j < |ids| && AllKnown(st, v0, ids[j]) && Resolving(st, v0, ids[j], i, e) ::
      e.order in v1.thoughts && v1.thoughts[e.order] == v0.thoughts[e.order]
  }

  lemma WaitingFirst(st: State, v: Work, ids: seq<Id>)
    requires st.WellFormed()
    ensures Waiting(st, v, v, ids, 0)
  {
  }

  lemma WaitingSkip(st: State, v0: Work, v1: Work, ids: seq<Id>, k: nat)
    requires st.WellFormed() && Waiting(st, v0, v1, ids, k)
    ensures Waiting(st, v0, v1, ids, k + 1)
  {
  }

  /** Of the first k cards, only targeted ones are touched. */
  ghost predicate OthersKept(v0: Work, v1: Work, id: Id, exclude: set<nat>, es: seq<Entry>, k: nat) {
    forall j | 0 <= j < k && j < |es| && es[j].order in v0.thoughts && !Targeted(v0, id, exclude, es[j]) ::
      es[j].order in v1.thoughts && v1.thoughts[es[j].order] == v0.thoughts[es[j].order]
  }

  lemma WaitingNext(st: State, start: seq<Card>, v0: Work, v1: Work, v2: Work, ids: seq<Id>, k: nat)
    requires Ok(st, start, v0) && Sound(st, start, v0) && Sound(st, start, v2) && Feasible(st, start) && st.WellFormed()
    requires k < |ids| && Waiting(st, v0, v1, ids, k) && OthersKept(v1, v2, ids[k], {}, Entries(st), |Entries(st)|)
    requires InThoughts(v1, Entries(st)) && InThoughts(v2, Entries(st)) && forall e | e in Entries(st) :: Removed(v1, v2, ids[k], {}, e)
    requires (forall i, j | 0 <= i < j < |ids| :: ids[i] != ids[j]) && forall i | i in ids :: st.ValidId(i)
    ensures Waiting(st, v0, v2, ids, k + 1)
  {
    hide Ok, Sound, Feasible, Targeted, Resolved, OthersKept, AllKnown;
    forall j, e, i | k + 1 <= j < |ids| && AllKnown(st, v0, ids[j]) && Resolving(st, v0, ids[j], i, e)
      ensures e.order in v2.thoughts && v2.thoughts[e.order] == v0.thoughts[e.order]
    {
      assert v1.thoughts[e.order] == v0.thoughts[e.order];
      assert ids[j] in ids;
      StaysUntouched(st, start, v0, v1, v2, ids[j], ids[k], i, e);
    }
  }

  /** A card that can only be i, since no copy of id is left for it, does not lose i. */
  lemma StaysUntouched(st: State, start: seq<Card>, v0: Work, v1: Work, v2: Work, id: Id, other: Id, i: Id, e: Entry)
    requires Ok(st, start, v0) && Sound(st, start, v0) && Sound(st, start, v2) && Feasible(st, start) && st.WellFormed()
    requires Resolving(st, v0, id, i, e) && AllKnown(st, v0, id) && st.ValidId(id) && other != id
    requires e.order in v1.thoughts && e.order in v2.thoughts && v1.thoughts[e.order] == v0.thoughts[e.order]
    requires Removed(v1, v2, other, {}, e) && OthersKept(v1, v2, other, {}, Entries(st), |Entries(st)|)
    ensures v2.thoughts[e.order] == v0.thoughts[e.order]
  {
    var w: Deal :| Consistent(w, st, start);
    BasicLicence(st, start, v0, id);
    var r := v0.(eliminated := v0.eliminated + {id});
    assert Agrees(w, st, v0) && Agrees(w, st, v2) && Spares(w, r, id, {}, Entries(st));
    hide Ok, Sound, Agrees, Resolved;
    assert Targeted(r, id, {}, e);
    assert w[e.order] == i && i in v2.thoughts[e.order].possible;
    var j :| 0 <= j < |Entries(st)| && Entries(st)[j] == e;
  }

  /** The elimination of what the cards resolved by id have turned into. */
  lemma FollowedBy(st: State, start: seq<Card>, v0: Work, v1: Work, v2: Work, v3: Work, id: Id, found: seq<Id>)
    requires Ok(st, start, v0) && Ok(st, start, v2) && Sound(st, start, v2) && st.WellFormed() && Feasible(st, start)
    requires Refines(v0, v1) && Refines(v1, v2) && Refines(v2, v3) && InThoughts(v3, Entries(st))
    requires forall e, i | Resolving(st, v0, id, i, e) :: e.order in v1.thoughts && v1.thoughts[e.order] == v0.thoughts[e.order]
                                                          && Targeted(v1, id, {}, e)
    requires Discovered(v1, v2, id, {}, Entries(st), |Entries(st)|, found) && AllCleared(st, v2, v3, found)
    ensures Followed(st, v0, v3, id)
  {
    hide Ok, Sound, Feasible, Refines, Resolved, Completes, AllCleared, Cleared;
    forall i, e, f | Resolving(st, v0, id, i, e) && Completes(st, v0, i, e.order) && f in Entries(st) && f.order != e.order
                     && f.order in v0.thoughts && f.order in v3.thoughts && Targeted(v0, i, {}, f)
      ensures i !in v3.thoughts[f.order].possible
    {
      var j :| 0 <= j < |Entries(st)| && Entries(st)[j] == e;
      assert TurnsInto(v1, id, {}, Entries(st)[j], i);
      assert FoundAs(v2, found, Entries(st)[j].order, i);
      CompletedIsKnown(st, start, v0, v1, v2, i, e.order);
      KnownThenCleared(st, v0, v1, v2, v3, i, e.order, f, found);
    }
  }

  lemma CompletedIsKnown(st: State, start: seq<Card>, v0: Work, v1: Work, v2: Work, i: Id, o: Order)
    requires Ok(st, start, v0) && Ok(st, start, v2) && Sound(st, start, v2) && st.WellFormed() && Feasible(st, start)
    requires Refines(v0, v1) && Refines(v1, v2) && IsCertain(v2.certain, i, o) && Completes(st, v0, i, o)
    requires o in v0.thoughts && i in v0.thoughts[o].possible
    ensures AllKnown(st, v2, i) && CertainOrders(v2.certain, i) == CertainOrders(v0.certain, i) + {o}
  {
    var w: Deal :| Consistent(w, st, start);
    assert Agrees(w, st, v2);
    CertainOrdersHeld(w, st, start, v2, i);
    var (a, b) := (CertainOrders(v0.certain, i) + {o}, CertainOrders(v2.certain, i));
    assert st.ValidId(i);
    assert RespectsCounts(w, st);
    SubsetCardinality(b, Held(w, st, i));
    SubsetCardinality(a, b);
  }

  lemma KnownThenCleared(st: State, v0: Work, v1: Work, v2: Work, v3: Work, i: Id, o: Order, f: Entry, found: seq<Id>)
    requires st.WellFormed() && Refines(v0, v1) && Refines(v1, v2) && Refines(v2, v3) && AllCleared(st, v2, v3, found) && i in found
    requires AllKnown(st, v2, i) && CertainOrders(v2.certain, i) == CertainOrders(v0.certain, i) + {o}
    requires f in Entries(st) && f.order != o && f.order in v0.thoughts && f.order in v3.thoughts && Targeted(v0, i, {}, f)
    ensures i !in v3.thoughts[f.order].possible
  {
    RefinesTransitive(v0, v1, v2);
    assert Cleared(st, v2, v3, i);
    if i in v2.thoughts[f.order].possible {
      assert !IsCertain(v2.certain, i, f.order) by {
        assert f.order !in CertainOrders(v2.certain, i);
      }
      assert Targeted(v2, i, {}, f);
    }
  }

  // ----- Whose removals are followed -----

  ghost predicate Distinct(ids: seq<Id>) {
    forall i, j | 0 <= i < j < |ids| :: ids[i] != ids[j]
  }

  /** Number k is fully accounted for at first, and no later one is even in the end. */
  ghost predicate LastKnown(st: State, v0: Work, v1: Work, ids: seq<Id>, k: nat)
    requires st.WellFormed()
  {
    k < |ids| && AllKnown(st, v0, ids[k]) && forall j | k < j < |ids| :: !AllKnown(st, v1, ids[j])
  }

  /** The identities from k on have not been removed from any card. */
  ghost predicate Untried(st: State, v0: Work, v1: Work, ids: seq<Id>, k: nat) {
    forall j, e | k <= j < |ids| && e in Entries(st) && e.order in v0.thoughts && ids[j] in v0.thoughts[e.order].possible ::
      e.order in v1.thoughts && ids[j] in v1.thoughts[e.order].possible
  }

  lemma UntriedNext(st: State, v0: Work, v1: Work, v2: Work, ids: seq<Id>, k: nat, exclude: set<nat>)
    requires k < |ids| && Untried(st, v0, v1, ids, k) && v1.thoughts.Keys == v2.thoughts.Keys && InThoughts(v1, Entries(st))
    requires forall e | e in Entries(st) :: Removed(v1, v2, ids[k], exclude, e)
    requires forall i, j | 0 <= i < j < |ids| :: ids[i] != ids[j]
    ensures Untried(st, v0, v2, ids, k + 1)
  {
    hide Targeted;
    forall j, e | k + 1 <= j < |ids| && e in Entries(st) && e.order in v0.thoughts && ids[j] in v0.thoughts[e.order].possible
      ensures e.order in v2.thoughts && ids[j] in v2.thoughts[e.order].possible
    {
      assert Removed(v1, v2, ids[k], exclude, e) && ids[j] != ids[k];
    }
  }

  lemma KnownNowhere(st: State, start: seq<Card>, v: Work, id: Id)
    requires Ok(st, start, v) && Sound(st, start, v) && st.ValidId(id) && st.WellFormed() && AllKnown(st, v, id)
    ensures NoneElsewhere(st, start, v, id, {})
  {
    BasicLicence(st, start, v, id);
    OkBasics(st, start, v);
    var r := v.(eliminated := v.eliminated + {id});
    hide Ok, Sound, AllKnown, Consistent;
    assert forall e | e in Entries(st) :: Targeted(r, id, {}, e) == Targeted(v, id, {}, e);
    forall w | Consistent(w, st, start)
      ensures Spares(w, v, id, {}, Entries(st))
    {
      assert Spares(w, r, id, {}, Entries(st));
    }
  }

  /** What basic_elim has done after k turns: the last turn that was not skipped, what it found and what it reported. */
  ghost predicate LastTurn(st: State, start: seq<Card>, v0: Work, before: Work, v: Work, ids: seq<Id>, k: nat, turn: int, found: seq<Id>, changed: bool)
    requires st.WellFormed()
  {
    && -1 <= turn < k <= |ids| && Waiting(st, v0, v, ids, k) && Untried(st, v0, v, ids, k)
    && (forall j | turn < j < k :: !AllKnown(st, v, ids[j]))
    && (turn >= 0 ==>
          && Ok(st, start, before) && Sound(st, start, before) && Refines(v0, before) && Refines(before, v) && InThoughts(before, Entries(st))
          && Waiting(st, v0, before, ids, turn) && Untried(st, v0, before, ids, turn) && AllKnown(st, before, ids[turn])
          && PassLeft(before, v, ids[turn], {}, Entries(st), found) && changed == AnyTargeted(st, before, ids[turn], {}))
  }

  lemma LastTurnFirst(st: State, start: seq<Card>, v: Work, ids: seq<Id>)
    requires Ok(st, start, v) && st.WellFormed()
    ensures LastTurn(st, start, v, v, v, ids, 0, -1, [], false)
  {
  }

  lemma LastTurnSkips(st: State, start: seq<Card>, v0: Work, before: Work, v: Work, ids: seq<Id>, k: nat, turn: int, found: seq<Id>, changed: bool)
    requires st.WellFormed() && LastTurn(st, start, v0, before, v, ids, k, turn, found, changed) && k < |ids| && !AllKnown(st, v, ids[k])
    ensures LastTurn(st, start, v0, before, v, ids, k + 1, turn, found, changed)
  {
    hide Ok, Sound, Refines, AllKnown, PassLeft, Resolving;
  }

  lemma LastTurnMoves(st: State, start: seq<Card>, v0: Work, before: Work, v1: Work, v2: Work, ids: seq<Id>, k: nat, turn: int, found: seq<Id>,
                      changed: bool, more: seq<Id>, any: bool)
    requires st.WellFormed() && LastTurn(st, start, v0, before, v1, ids, k, turn, found, changed) && k < |ids| && AllKnown(st, v1, ids[k])
    requires Ok(st, start, v0) && Sound(st, start, v0) && Ok(st, start, v1) && Sound(st, start, v1) && Ok(st, start, v2) && Sound(st, start, v2)
    requires Refines(v0, v1) && Refines(v1, v2) && Feasible(st, start) && Distinct(ids) && forall i | i in ids :: st.ValidId(i)
    requires InThoughts(v1, Entries(st)) && InThoughts(v2, Entries(st)) && PassLeft(v1, v2, ids[k], {}, Entries(st), more)
    requires any == AnyTargeted(st, v1, ids[k], {}) && forall e | e in Entries(st) :: Removed(v1, v2, ids[k], {}, e)
    ensures LastTurn(st, start, v0, v1, v2, ids, k + 1, k, more, any)
  {
    hide Ok, Sound, Refines, AllKnown, Resolving, Targeted, Discovered, OthersKept, Waiting, Untried, Feasible;
    WaitingNext(st, start, v0, v1, v2, ids, k);
    RefinesKeys(v1, v2);
    UntriedNext(st, v0, v1, v2, ids, k, {});
  }

  lemma RefinesKeys(v0: Work, v1: Work)
    requires Refines(v0, v1)
    ensures v0.thoughts.Keys == v1.thoughts.Keys
  {
  }

  /** The turn of the last identity that is accounted for was not skipped, and those after it were. */
  lemma LastTurnIs(st: State, start: seq<Card>, v0: Work, before: Work, v: Work, end: Work, ids: seq<Id>, turn: int, found: seq<Id>, changed: bool, k: nat)
    requires st.WellFormed() && LastTurn(st, start, v0, before, v, ids, |ids|, turn, found, changed) && LastKnown(st, v0, end, ids, k)
    requires Ok(st, start, v) && Sound(st, start, v) && Ok(st, start, end) && Sound(st, start, end)
    requires Refines(v0, v) && Refines(v, end) && Feasible(st, start) && forall i | i in ids :: st.ValidId(i)
    ensures turn == k
  {
    assert ids[k] in ids;
    AllKnownStays(st, start, v0, v, ids[k]);
    if turn > k {
      RefinesTransitive(before, v, end);
      assert ids[turn] in ids;
      AllKnownStays(st, start, before, end, ids[turn]);
    }
  }

  lemma LastTurnEnds(st: State, start: seq<Card>, v0: Work, before: Work, v: Work, end: Work, ids: seq<Id>, turn: int, found: seq<Id>, changed: bool)
    requires st.WellFormed() && LastTurn(st, start, v0, before, v, ids, |ids|, turn, found, changed)
    requires Ok(st, start, v0) && Sound(st, start, v0) && Ok(st, start, v) && Sound(st, start, v) && Ok(st, start, end) && Sound(st, start, end)
    requires Refines(v0, v) && Refines(v, end) && Feasible(st, start) && (forall i | i in ids :: st.ValidId(i))
    requires InThoughts(v0, Entries(st)) && AllCleared(st, v, end, found)
    ensures forall k | 0 <= k < |ids| && LastKnown(st, v0, end, ids, k) ::
              Followed(st, v0, end, ids[k]) && (AnyTargeted(st, v0, ids[k], {}) ==> changed)
  {
    hide Ok, Sound, Refines, AllKnown, Resolved, Targeted, Discovered, OthersKept, Feasible, Followed, AllCleared, NoneElsewhere;
    forall k | 0 <= k < |ids| && LastKnown(st, v0, end, ids, k)
      ensures Followed(st, v0, end, ids[k]) && (AnyTargeted(st, v0, ids[k], {}) ==> changed)
    {
      LastTurnIs(st, start, v0, before, v, end, ids, turn, found, changed, k);
      assert ids[k] in ids;
      KnownNowhere(st, start, v0, ids[k]);
      forall e | e in Entries(st) && Targeted(v0, ids[k], {}, e)
        ensures e.order in before.thoughts && Targeted(before, ids[k], {}, e)
      {
        TargetedHasIt(v0, ids[k], e);
        StillTargeted(st, start, v0, before, ids[k], {}, e);
      }
      OkBasics(st, start, end);
      FollowedBy(st, start, v0, before, v, end, ids[k], found);
    }
  }

  lemma TargetedHasIt(v: Work, id: Id, e: Entry)
    requires e.order in v.thoughts && Targeted(v, id, {}, e)
    ensures id in v.thoughts[e.order].possible
  {
  }

  // ----- What perform_elim reports of its last part -----

  /** The hands of the subset have kept their possibilities. */
  ghost predicate InsideKept(st: State, v0: Work, v1: Work, s: Subset) {
    forall e | e in Entries(st) && e.player in PlayersOf(s.contained) && e.order in v0.thoughts ::
      e.order in v1.thoughts && v1.thoughts[e.order].possible == v0.thoughts[e.order].possible
  }

  lemma InsideKeptNext(st: State, v0: Work, v1: Work, v2: Work, s: Subset, id: Id)
    requires InsideKept(st, v0, v1, s) && InThoughts(v1, Entries(st)) && v2.thoughts.Keys == v1.thoughts.Keys
    requires forall e | e in Entries(st) :: Removed(v1, v2, id, PlayersOf(s.contained), e)
    ensures InsideKept(st, v0, v2, s)
  {
    forall e | e in Entries(st) && e.player in PlayersOf(s.contained) && e.order in v0.thoughts
      ensures e.order in v2.thoughts && v2.thoughts[e.order].possible == v0.thoughts[e.order].possible
    {
      assert Removed(v1, v2, id, PlayersOf(s.contained), e);
    }
  }

  /** A card in a hand of the subset may lose id. */
  ghost predicate InsideTargeted(st: State, v: Work, s: Subset, id: Id) {
    exists e :: e in Entries(st) && e.order in v.thoughts && e.player in PlayersOf(s.contained) && Targeted(v, id, {}, e)
  }

  /** Once the subset's identities are gone elsewhere, the last one that is accounted for decides the report. */
  ghost predicate LastReported(st: State, v0: Work, v1: Work, s: Subset, changed: bool)
    requires st.WellFormed()
  {
    forall k | 0 <= k < |ArrayOf(s.ids, st.NumSuits())| && LastKnown(st, v0, v1, ArrayOf(s.ids, st.NumSuits()), k)
               && InsideTargeted(st, v0, s, ArrayOf(s.ids, st.NumSuits())[k]) :: changed
  }

  lemma BasicReports(st: State, start: seq<Card>, v0: Work, v1: Work, end: Work, s: Subset, changed: bool)
    requires Ok(st, start, v0) && Sound(st, start, v0) && Ok(st, start, v1) && Sound(st, start, v1) && Feasible(st, start) && st.WellFormed()
    requires Refines(v0, v1) && InsideKept(st, v0, v1, s) && InThoughts(v1, Entries(st)) && forall i | i in s.ids :: st.ValidId(i)
    requires var ids := ArrayOf(s.ids, st.NumSuits());
             forall k | 0 <= k < |ids| && LastKnown(st, v1, end, ids, k) :: AnyTargeted(st, v1, ids[k], {}) ==> changed
    ensures LastReported(st, v0, end, s, changed)
  {
    var ids := ArrayOf(s.ids, st.NumSuits());
    ArrayOfIsExact(s.ids, st.NumSuits());
    hide Ok, Sound, AllKnown, Feasible, Targeted, Refines, NoneElsewhere;
    forall k | 0 <= k < |ids| && LastKnown(st, v0, end, ids, k) && InsideTargeted(st, v0, s, ids[k])
      ensures changed
    {
      assert ids[k] in ids;
      AllKnownStays(st, start, v0, v1, ids[k]);
      KnownNowhere(st, start, v0, ids[k]);
      var e :| e in Entries(st) && e.order in v0.thoughts && e.player in PlayersOf(s.contained) && Targeted(v0, ids[k], {}, e);
      TargetedHasIt(v0, ids[k], e);
      StillTargeted(st, start, v0, v1, ids[k], {}, e);
      assert LastKnown(st, v1, end, ids, k) && AnyTargeted(st, v1, ids[k], {});
    }
  }
}
