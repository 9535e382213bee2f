// The "sudoku" step of `card_elim`: what a subset of cards must satisfy before it licenses an elimination.
module NakedSubsets {
  import opened Cards
  import opened GameState
  import opened Beliefs
  import opened Elimination

  function OrdersOf(es: seq<Entry>): set<Order> {
    set e | e in es :: e.order
  }

  function PlayersOf(es: seq<Entry>): set<nat> {
    set e | e in es :: e.player
  }

  /** The arguments of gen_subset: chosen cards, the union of their possibilities,
      and the other cards certain to be among those. */
  datatype Subset = Subset(contained: seq<Entry>, ids: set<Id>, certains: set<Order>)

  /** The chosen cards are confined to ids, and certains are other cards that take up ids. */
  ghost predicate SubsetOk(st: State, v: Work, s: Subset, next: nat) {
    && (forall e | e in s.contained :: e in Entries(st) && e.order in v.thoughts && v.thoughts[e.order].possible <= s.ids)
    && OrdersDistinct(s.contained)
    && (forall i | i in s.ids :: st.ValidId(i))
    && (forall o | o in s.certains :: exists i: Id :: i in s.ids && IsCertain(v.certain, i, o))
    && s.certains * OrdersOf(s.contained) == {}
    && (forall j | next <= j < |v.candidates| :: v.candidates[j].order !in OrdersOf(s.contained))
  }

  lemma SubsetBasics(st: State, v: Work, s: Subset, next: nat)
    requires SubsetOk(st, v, s, next)
    ensures OrdersDistinct(s.contained) && (forall e | e in s.contained :: e in Entries(st)) && forall i | i in s.ids :: st.ValidId(i)
  {
  }

  /** Later, finer working states leave a subset as usable as it was. */
  lemma SubsetStays(st: State, v0: Work, v1: Work, s: Subset, next: nat)
    requires SubsetOk(st, v0, s, next) && Refines(v0, v1)
    ensures SubsetOk(st, v1, s, next)
  {
    forall o | o in s.certains
      ensures exists i: Id :: i in s.ids && IsCertain(v1.certain, i, o)
    {
      var i: Id :| i in s.ids && IsCertain(v0.certain, i, o);
      assert o in v0.certain[i].Keys;
      assert IsCertain(v1.certain, i, o);
    }
    forall j | next <= j < |v1.candidates|
      ensures v1.candidates[j].order !in OrdersOf(s.contained)
    {
      assert FromLater(v0.candidates, j, v1.candidates[j]);
    }
  }

  lemma {:induction false} OrdersOfCount(es: seq<Entry>)
    requires OrdersDistinct(es)
    ensures |OrdersOf(es)| == |es|
  {
    if es == [] {
      assert OrdersOf(es) == {};
    } else {
      OrdersOfCount(es[1..]);
      assert OrdersOf(es) == {es[0].order} + OrdersOf(es[1..]) by {
        assert es == [es[0]] + es[1..];
      }
      assert es[0].order !in OrdersOf(es[1..]);
    }
  }

  lemma UnionSize<T>(a: set<T>, b: set<T>)
    ensures |a + b| == |a| + |b| - |a * b|
    ensures a * b == {} ==> |a + b| == |a| + |b|
  {
  }

  lemma SubsetHeld(w: Deal, st: State, start: seq<Card>, v: Work, s: Subset, next: nat)
    requires Ok(st, start, v) && Agrees(w, st, v)
    requires SubsetOk(st, v, s, next)
    ensures OrdersOf(s.contained) + s.certains <= HeldAmong(w, st, s.ids)
  {
    forall o | o in s.certains
      ensures o in HeldAmong(w, st, s.ids)
    {
      var i: Id :| i in s.ids && IsCertain(v.certain, i, o);
    }
  }

  /** Once cards and certainties use up every free copy of s.ids, other cards are none of them. */
  lemma NakedSubset(w: Deal, st: State, start: seq<Card>, v: Work, s: Subset, next: nat)
    requires Ok(st, start, v) && Agrees(w, st, v) && RespectsCounts(w, st)
    requires SubsetOk(st, v, s, next)
    requires |s.contained| + |s.certains| == Multiplicity(st, ArrayOf(s.ids, st.NumSuits()))
    ensures forall o | o in HandOrders(st) && o < |w| && w[o] in s.ids :: o in OrdersOf(s.contained) || o in s.certains
  {
    hide Ok, Agrees;
    OrdersOfCount(s.contained);
    UnionSize(OrdersOf(s.contained), s.certains);
    SubsetHeld(w, st, start, v, s, next);
    OkBasics(st, start, v);
    Saturation(w, st, s.ids, OrdersOf(s.contained) + s.certains);
  }

  /** A card is in one hand only. */
  lemma OutsideHands(st: State, group: seq<Entry>, e: Entry)
    requires OrdersDistinct(Entries(st)) && (forall d | d in group :: d in Entries(st)) && e in Entries(st)
    requires e.player !in PlayersOf(group)
    ensures e.order !in OrdersOf(group)
  {
    forall d | d in group
      ensures d.order != e.order
    {
      assert d.player in PlayersOf(group);
    }
  }

  /** perform_elim may remove each identity of the subset outside the hands that hold the subset. */
  lemma NakedSubsetLicence(st: State, start: seq<Card>, v: Work, s: Subset, next: nat, id: Id)
    requires Ok(st, start, v) && Sound(st, start, v) && id in s.ids
    requires SubsetOk(st, v, s, next)
    requires |s.contained| + |s.certains| == Multiplicity(st, ArrayOf(s.ids, st.NumSuits()))
    ensures NoneElsewhere(st, start, v, id, PlayersOf(s.contained))
  {
    OkBasics(st, start, v);
    forall w | Consistent(w, st, start)
      ensures Spares(w, v, id, PlayersOf(s.contained), Entries(st))
    {
      assert Agrees(w, st, v);
      NakedSubset(w, st, start, v, s, next);
      SubsetSpares(w, st, start, v, s, next, id);
    }
  }

  lemma SubsetSpares(w: Deal, st: State, start: seq<Card>, v: Work, s: Subset, next: nat, id: Id)
    requires Ok(st, start, v) && Agrees(w, st, v) && id in s.ids
    requires SubsetOk(st, v, s, next)
    requires forall o | o in HandOrders(st) && o < |w| && w[o] in s.ids :: o in OrdersOf(s.contained) || o in s.certains
    ensures InThoughts(v, Entries(st)) && Spares(w, v, id, PlayersOf(s.contained), Entries(st))
  {
    OkBasics(st, start, v);
    forall e | e in Entries(st) && Targeted(v, id, PlayersOf(s.contained), e)
      ensures e.order < |w| && w[e.order] != id
    {
      assert e.order in HandOrders(st) && e.order in v.thoughts;
      OutsideHands(st, s.contained, e);
      if e.order in s.certains {
        var i: Id :| i in s.ids && IsCertain(v.certain, i, e.order);
        assert i != id;
      }
    }
  }

  // ----- Groups of equal known cards -----

  /** `state.deck[order].identity() ?? getThoughts(order).identity()`. */
  function KnownIdentity(known: Option<Id>, card: Card): Option<Id> {
    if known.Some? then known else card.Identity(false)
  }

  ghost predicate IdentsRight(st: State, start: seq<Card>, ident: map<Order, Option<Id>>)
    requires st.WellFormed()
  {
    forall w, o: Order | Consistent(w, st, start) && o in ident && ident[o].Some? :: o < |w| && w[o] == ident[o].value
  }

  lemma KnownIdentityRight(w: Deal, st: State, start: seq<Card>, v: Work, o: Order)
    requires Ok(st, start, v) && Consistent(w, st, start) && Agrees(w, st, v) && o in HandOrders(st)
    requires KnownIdentity(st.deck[o], v.thoughts[o]).Some?
    ensures o < |w| && w[o] == KnownIdentity(st.deck[o], v.thoughts[o]).value
  {
    assert AgreesWithCard(w[o], st.deck[o], start[o]);
    if st.deck[o].None? {
      IdentityRight(w[o], st.deck[o], v.thoughts[o], false);
    }
  }

  lemma IdentsAreRight(st: State, start: seq<Card>, v: Work, ident: map<Order, Option<Id>>)
    requires Ok(st, start, v) && Sound(st, start, v)
    requires forall o | o in ident :: o in HandOrders(st) && ident[o] == KnownIdentity(st.deck[o], v.thoughts[o])
    ensures IdentsRight(st, start, ident)
  {
    forall w, o: Order | Consistent(w, st, start) && o in ident && ident[o].Some?
      ensures o < |w| && w[o] == ident[o].value
    {
      assert Agrees(w, st, v);
      KnownIdentityRight(w, st, start, v, o);
    }
  }

  /** The entries whose known identity is id. */
  function Group(es: seq<Entry>, ident: map<Order, Option<Id>>, id: Id): (g: seq<Entry>)
    ensures forall e :: e in g <==> e in es && e.order in ident && ident[e.order] == Some(id)
  {
    if es == [] then []
    else (if es[0].order in ident && ident[es[0].order] == Some(id) then [es[0]] else []) + Group(es[1..], ident, id)
  }

  /** The keys of `Utils.groupBy`, in insertion order, without 'undefined'. */
  function GroupKeys(es: seq<Entry>, ident: map<Order, Option<Id>>, seen: set<Id>): (keys: seq<Id>)
    ensures forall i | i in keys :: exists e :: e in es && e.order in ident && ident[e.order] == Some(i)
  {
    if es == [] then []
    else if es[0].order in ident && ident[es[0].order].Some? && ident[es[0].order].value !in seen then
      [ident[es[0].order].value] + GroupKeys(es[1..], ident, seen + {ident[es[0].order].value})
    else GroupKeys(es[1..], ident, seen)
  }

  lemma {:induction false} GroupDistinct(es: seq<Entry>, ident: map<Order, Option<Id>>, id: Id)
    requires OrdersDistinct(es)
    ensures OrdersDistinct(Group(es, ident, id))
  {
    if es != [] {
      GroupDistinct(es[1..], ident, id);
      assert forall e | e in Group(es[1..], ident, id) :: e.order != es[0].order;
    }
  }

  /** The cards certain to be id, apart from those of the group. */
  function OtherCertains(m: CertainMap, id: Id, group: seq<Entry>): set<Order> {
    CertainOrders(m, id) - OrdersOf(group)
  }

  lemma MembersHeld(w: Deal, st: State, group: seq<Entry>, id: Id)
    requires forall e | e in group :: e in Entries(st) && e.order < |w| && w[e.order] == id
    ensures OrdersOf(group) <= Held(w, st, id)
  {
  }

  lemma BothHeld(w: Deal, st: State, id: Id, mine: set<Order>, others: set<Order>)
    requires st.WellFormed() && RespectsCounts(w, st) && st.ValidId(id)
    requires mine <= Held(w, st, id) && others <= Held(w, st, id) && mine !! others
    requires |mine| + |others| >= st.CardCount(id) - st.BaseCount(id)
    ensures Held(w, st, id) == mine + others
  {
    assert |mine + others| == |mine| + |others|;
    SaturationOne(w, st, id, mine + others);
  }

  lemma GroupHeld(w: Deal, st: State, start: seq<Card>, v: Work, group: seq<Entry>, id: Id)
    requires Ok(st, start, v) && Agrees(w, st, v) && RespectsCounts(w, st) && st.ValidId(id)
    requires OrdersDistinct(group) && forall e | e in group :: e in Entries(st) && e.order < |w| && w[e.order] == id
    requires |group| + |OtherCertains(v.certain, id, group)| >= st.CardCount(id) - st.BaseCount(id)
    ensures Held(w, st, id) <= OrdersOf(group) + CertainOrders(v.certain, id)
  {
    var mine, others := OrdersOf(group), OtherCertains(v.certain, id, group);
    OrdersOfCount(group);
    CertainOrdersHeld(w, st, start, v, id);
    MembersHeld(w, st, group, id);
    hide Ok, Agrees, Held, CertainOrders, OrdersOf, Entries;
    BothHeld(w, st, id, mine, others);
  }

  lemma GroupSpares(w: Deal, st: State, start: seq<Card>, v: Work, group: seq<Entry>, id: Id)
    requires Ok(st, start, v) && Agrees(w, st, v)
    requires forall e | e in group :: e in Entries(st)
    requires Held(w, st, id) <= OrdersOf(group) + CertainOrders(v.certain, id)
    ensures InThoughts(v, Entries(st)) && Spares(w, v, id, PlayersOf(group), Entries(st))
  {
    OkBasics(st, start, v);
    forall e | e in Entries(st) && Targeted(v, id, PlayersOf(group), e)
      ensures e.order < |w| && w[e.order] != id
    {
      assert e.order in HandOrders(st) && e.order in v.thoughts;
      OutsideHands(st, group, e);
      assert e.order !in Held(w, st, id);
    }
  }

  /** The first loop of perform_elim: a group of known copies licenses removing its identity elsewhere. */
  lemma GroupLicence(st: State, start: seq<Card>, v: Work, es: seq<Entry>, ident: map<Order, Option<Id>>, id: Id)
    requires Ok(st, start, v) && Sound(st, start, v) && IdentsRight(st, start, ident)
    requires OrdersDistinct(es) && (forall e | e in es :: e in Entries(st)) && Group(es, ident, id) != []
    requires |Group(es, ident, id)| + |OtherCertains(v.certain, id, Group(es, ident, id))|
             >= Multiplicity(st, [id])
    ensures NoneElsewhere(st, start, v, id, PlayersOf(Group(es, ident, id)))
  {
    var group := Group(es, ident, id);
    GroupDistinct(es, ident, id);
    OkBasics(st, start, v);
    forall w | Consistent(w, st, start)
      ensures Spares(w, v, id, PlayersOf(group), Entries(st))
    {
      assert Agrees(w, st, v);
      var e := group[0];
      assert e in group && e.order in HandOrders(st) && w[e.order] == id;
      assert w[e.order] in v.thoughts[e.order].possible;
      GroupHeld(w, st, start, v, group, id);
      GroupSpares(w, st, start, v, group, id);
    }
  }

  /** The cards of a list that are known to be id. */
  ghost function KnownAmong(st: State, v: Work, es: seq<Entry>, id: Id): set<Entry> {
    set e | e in es && e.order in v.thoughts && e.order < |st.deck| && KnownIdentity(st.deck[e.order], v.thoughts[e.order]) == Some(id)
  }

  ghost function OrdersIn(es: set<Entry>): set<Order> { set e | e in es :: e.order }

  ghost function PlayersIn(es: set<Entry>): set<nat> { set e | e in es :: e.player }

  /** Cards of the list are known to be id, and with the other cards certain to be it they are all copies that are left. */
  ghost predicate FullGroup(st: State, v: Work, es: seq<Entry>, id: Id)
    requires st.WellFormed()
  {
    var known := OrdersIn(KnownAmong(st, v, es, id));
    known != {} && |known| + |CertainOrders(v.certain, id) - known| + st.BaseCount(id) >= st.CardCount(id)
  }

  /** If there is a full group of id in the list, no card in another hand that could lose id has kept it. */
  ghost predicate GroupDone(st: State, v0: Work, v1: Work, es: seq<Entry>, id: Id)
    requires st.WellFormed()
  {
    FullGroup(st, v0, es, id) ==>
      forall e | e in Entries(st) && e.order in v0.thoughts && e.order in v1.thoughts && Targeted(v0, id, PlayersIn(KnownAmong(st, v0, es, id)), e)
        :: id !in v1.thoughts[e.order].possible
  }

  ghost predicate GroupsDone(st: State, v0: Work, v1: Work, es: seq<Entry>)
    requires st.WellFormed()
  {
    forall id :: GroupDone(st, v0, v1, es, id)
  }

  lemma {:induction false} GroupKeysAll(es: seq<Entry>, ident: map<Order, Option<Id>>, seen: set<Id>, id: Id)
    requires id !in seen && Group(es, ident, id) != []
    ensures id in GroupKeys(es, ident, seen)
  {
    if !(es[0].order in ident && ident[es[0].order] == Some(id)) {
      var first := if es[0].order in ident then ident[es[0].order] else None;
      GroupKeysAll(es[1..], ident, if first.Some? && first.value !in seen then seen + {first.value} else seen, id);
    }
  }

  /** Each card is grouped by what it is known to be. */
  ghost predicate GroupedBy(st: State, v: Work, es: seq<Entry>, ident: map<Order, Option<Id>>) {
    forall e | e in es :: e.order in v.thoughts && e.order < |st.deck| && e.order in ident
                          && ident[e.order] == KnownIdentity(st.deck[e.order], v.thoughts[e.order])
  }

  /** The group under a key is what is known to be that identity. */
  lemma GroupIsKnown(st: State, v: Work, es: seq<Entry>, ident: map<Order, Option<Id>>, id: Id)
    requires OrdersDistinct(es) && GroupedBy(st, v, es, ident)
    ensures var group := Group(es, ident, id);
            && OrdersOf(group) == OrdersIn(KnownAmong(st, v, es, id)) && PlayersOf(group) == PlayersIn(KnownAmong(st, v, es, id))
            && |group| == |OrdersOf(group)|
  {
    var group := Group(es, ident, id);
    GroupDistinct(es, ident, id);
    OrdersOfCount(group);
    assert forall e :: e in group <==> e in KnownAmong(st, v, es, id);
  }

  lemma FullGroupCounts(st: State, v0: Work, v1: Work, es: seq<Entry>, ident: map<Order, Option<Id>>, id: Id)
    requires st.WellFormed() && OrdersDistinct(es) && GroupedBy(st, v0, es, ident)
    requires Refines(v0, v1) && FullGroup(st, v0, es, id)
    ensures var group := Group(es, ident, id);
            && group != [] && PlayersOf(group) == PlayersIn(KnownAmong(st, v0, es, id))
            && |group| + |OtherCertains(v0.certain, id, group)| >= Multiplicity(st, [id])
            && |group| + |OtherCertains(v1.certain, id, group)| >= Multiplicity(st, [id])
  {
    hide Refines, KnownAmong, KnownIdentity, OrdersIn, PlayersIn, Group, GroupedBy;
    var group := Group(es, ident, id);
    GroupIsKnown(st, v0, es, ident, id);
    MoreCertains(v0, v1, id, group);
    assert Multiplicity(st, [id]) == st.CardCount(id) - st.BaseCount(id) + Multiplicity(st, []);
  }

  /** What the turn of one key does. */
  lemma GroupStep(st: State, start: seq<Card>, v0: Work, v1: Work, v2: Work, es: seq<Entry>, ident: map<Order, Option<Id>>, id: Id)
    requires Ok(st, start, v0) && Sound(st, start, v0) && Sound(st, start, v1) && Refines(v0, v1) && Refines(v1, v2)
    requires Feasible(st, start) && IdentsRight(st, start, ident) && OrdersDistinct(es) && InThoughts(v1, Entries(st))
    requires (forall e | e in es :: e in Entries(st)) && GroupedBy(st, v0, es, ident)
    requires |Group(es, ident, id)| + |OtherCertains(v1.certain, id, Group(es, ident, id))| >= Multiplicity(st, [id]) ==>
               forall e | e in Entries(st) :: Removed(v1, v2, id, PlayersOf(Group(es, ident, id)), e)
    ensures GroupDone(st, v0, v2, es, id)
  {
    hide Ok, Sound, Refines, Feasible, Targeted, IdentsRight, FullGroup, KnownAmong, KnownIdentity, PlayersIn, PlayersOf, Group,
      OtherCertains, Multiplicity, OrdersDistinct, NoneElsewhere, GroupedBy;
    var group := Group(es, ident, id);
    OkBasics(st, start, v0);
    if FullGroup(st, v0, es, id) {
      FullGroupCounts(st, v0, v1, es, ident, id);
      GroupLicence(st, start, v0, es, ident, id);
      forall e | e in Entries(st) && e.order in v0.thoughts && e.order in v2.thoughts && Targeted(v0, id, PlayersOf(group), e)
        ensures id !in v2.thoughts[e.order].possible
      {
        RefinedPossible(v1, v2, e.order);
        if id in v1.thoughts[e.order].possible {
          StillTargeted(st, start, v0, v1, id, PlayersOf(group), e);
          assert Removed(v1, v2, id, PlayersOf(group), e);
        }
      }
    }
  }

  lemma MoreCertains(v0: Work, v1: Work, id: Id, group: seq<Entry>)
    requires Refines(v0, v1)
    ensures |OtherCertains(v0.certain, id, group)| <= |OtherCertains(v1.certain, id, group)|
  {
    SubsetCardinality(OtherCertains(v0.certain, id, group), OtherCertains(v1.certain, id, group));
  }

  lemma RefinedPossible(v0: Work, v1: Work, o: Order)
    requires Refines(v0, v1) && o in v1.thoughts
    ensures o in v0.thoughts && v1.thoughts[o].possible <= v0.thoughts[o].possible
  {
  }

  lemma GroupDoneStays(st: State, v0: Work, v1: Work, v2: Work, es: seq<Entry>, id: Id)
    requires st.WellFormed() && GroupDone(st, v0, v1, es, id) && Refines(v1, v2)
    ensures GroupDone(st, v0, v2, es, id)
  {
  }

  /** Every key has had its turn, and other identities have no group. */
  lemma AllGroupsDone(st: State, v0: Work, v1: Work, es: seq<Entry>, ident: map<Order, Option<Id>>)
    requires st.WellFormed() && OrdersDistinct(es) && GroupedBy(st, v0, es, ident)
    requires forall id | id in GroupKeys(es, ident, {}) :: GroupDone(st, v0, v1, es, id)
    ensures GroupsDone(st, v0, v1, es)
  {
    forall id: Id
      ensures GroupDone(st, v0, v1, es, id)
    {
      GroupIsKnown(st, v0, es, ident, id);
      if Group(es, ident, id) != [] {
        GroupKeysAll(es, ident, {}, id);
      }
    }
  }

  /** One more identity of the subset is gone. */
  lemma SubsetDoneNext(st: State, start: seq<Card>, v0: Work, v1: Work, v2: Work, id: Id, exclude: set<nat>)
    requires st.WellFormed() && Sound(st, start, v1) && Refines(v0, v1) && Refines(v1, v2) && Feasible(st, start)
    requires NoneElsewhere(st, start, v0, id, exclude) && InThoughts(v1, Entries(st)) && InThoughts(v2, Entries(st))
    requires forall e | e in Entries(st) :: Removed(v1, v2, id, exclude, e)
    ensures forall e | e in Entries(st) && e.order in v0.thoughts && e.order in v2.thoughts && Targeted(v0, id, exclude, e)
              :: id !in v2.thoughts[e.order].possible
  {
    hide Sound, Refines, Feasible, Targeted, NoneElsewhere;
    forall e | e in Entries(st) && e.order in v0.thoughts && e.order in v2.thoughts && Targeted(v0, id, exclude, e)
      ensures id !in v2.thoughts[e.order].possible
    {
      RefinedPossible(v1, v2, e.order);
      if id in v1.thoughts[e.order].possible {
        StillTargeted(st, start, v0, v1, id, exclude, e);
        assert Removed(v1, v2, id, exclude, e);
      }
    }
  }

  /** The first k identities of the subset are gone. */
  ghost predicate DoneUpTo(st: State, v0: Work, v1: Work, s: Subset, ids: seq<Id>, k: nat) {
    forall j, e | 0 <= j < k && j < |ids| && e in Entries(st) && e.order in v0.thoughts && e.order in v1.thoughts
                  && Targeted(v0, ids[j], PlayersOf(s.contained), e) :: ids[j] !in v1.thoughts[e.order].possible
  }

  lemma DoneNext(st: State, start: seq<Card>, v0: Work, v1: Work, v2: Work, s: Subset, ids: seq<Id>, k: nat)
    requires st.WellFormed() && Sound(st, start, v1) && Refines(v0, v1) && Refines(v1, v2) && Feasible(st, start) && k < |ids|
    requires NoneElsewhere(st, start, v0, ids[k], PlayersOf(s.contained)) && InThoughts(v1, Entries(st)) && InThoughts(v2, Entries(st))
    requires forall e | e in Entries(st) :: Removed(v1, v2, ids[k], PlayersOf(s.contained), e)
    requires DoneUpTo(st, v0, v1, s, ids, k)
    ensures DoneUpTo(st, v0, v2, s, ids, k + 1)
  {
    hide Sound, Feasible, Targeted, NoneElsewhere, Refines;
    SubsetDoneNext(st, start, v0, v1, v2, ids[k], PlayersOf(s.contained));
    forall j, e | 0 <= j < k && e in Entries(st) && e.order in v0.thoughts && e.order in v2.thoughts
                  && Targeted(v0, ids[j], PlayersOf(s.contained), e)
      ensures ids[j] !in v2.thoughts[e.order].possible
    {
      RefinedPossible(v1, v2, e.order);
    }
  }

  /** The identities of the subset are gone from all cards outside its hands that could lose them. */
  ghost predicate SubsetDone(st: State, v0: Work, v1: Work, s: Subset) {
    forall i, e | i in s.ids && e in Entries(st) && e.order in v0.thoughts && e.order in v1.thoughts && Targeted(v0, i, PlayersOf(s.contained), e)
      :: i !in v1.thoughts[e.order].possible
  }

  lemma DoneAll(st: State, v0: Work, v1: Work, s: Subset, ids: seq<Id>)
    requires DoneUpTo(st, v0, v1, s, ids, |ids|) && forall i :: i in ids <==> i in s.ids
    ensures SubsetDone(st, v0, v1, s)
  {
    hide Targeted;
    forall i, e | i in s.ids && e in Entries(st) && e.order in v0.thoughts && e.order in v1.thoughts && Targeted(v0, i, PlayersOf(s.contained), e)
      ensures i !in v1.thoughts[e.order].possible
    {
      var j :| 0 <= j < |ids| && ids[j] == i;
    }
  }

  lemma DoneStays(st: State, start: seq<Card>, v0: Work, v1: Work, v2: Work, v3: Work, s: Subset, es: seq<Entry>)
    requires st.WellFormed() && GroupsDone(st, v0, v1, es) && Refines(v0, v1) && Refines(v1, v2) && Refines(v2, v3)
    ensures GroupsDone(st, v0, v3, es)
  {
    RefinesTransitive(v1, v2, v3);
    forall id: Id
      ensures GroupDone(st, v0, v3, es, id)
    {
      assert GroupDone(st, v0, v1, es, id);
      GroupDoneStays(st, v0, v1, v3, es, id);
    }
  }

  // ----- The recursion of gen_subset -----

  lemma ThinnedLength(v0: Work, v1: Work)
    requires Refines(v0, v1)
    ensures |v1.candidates| <= |v0.candidates|
  {
  }

  lemma ItemFacts(st: State, start: seq<Card>, v: Work, next: nat)
    requires Ok(st, start, v) && next < |v.candidates|
    ensures v.candidates[next] in Entries(st) && v.candidates[next].order in v.thoughts
    ensures forall i | i in v.thoughts[v.candidates[next].order].possible :: st.ValidId(i)
  {
  }

  /** The cards certain to be one of ids. */
  function AllCertains(m: CertainMap, ids: set<Id>): set<Order> {
    set i, o | i in ids && o in CertainOrders(m, i) :: o
  }

  /** Taking a card with the given possibilities into the subset. */
  function TakeItem(m: CertainMap, s: Subset, item: Entry, possible: set<Id>): Subset {
    var contained := s.contained + [item];
    Subset(contained, s.ids + possible, s.certains + AllCertains(m, possible - s.ids) - OrdersOf(contained))
  }

  /** Taking the next candidate into the subset. */
  function Take(v: Work, s: Subset, next: nat): Subset
    requires next < |v.candidates|
  {
    var item := v.candidates[next];
    TakeItem(v.certain, s, item, if item.order in v.thoughts then v.thoughts[item.order].possible else {})
  }

  lemma SubsetGrows(st: State, start: seq<Card>, v: Work, s: Subset, next: nat)
    requires Ok(st, start, v) && next < |v.candidates|
    requires SubsetOk(st, v, s, next)
    ensures SubsetOk(st, v, Take(v, s, next), next + 1)
  {
    ItemFacts(st, start, v, next);
    var item := v.candidates[next];
    var possible := v.thoughts[item.order].possible;
    var t := Take(v, s, next);
    assert CandidatesOk(st, v.candidates);
    hide Ok;
    assert OrdersOf(t.contained) == OrdersOf(s.contained) + {item.order};
    forall o | o in t.certains
      ensures exists i: Id :: i in t.ids && IsCertain(v.certain, i, o)
    {
      if o in s.certains {
        var i: Id :| i in s.ids && IsCertain(v.certain, i, o);
        assert i in t.ids && IsCertain(v.certain, i, o);
      } else {
        var i: Id :| i in possible - s.ids && o in CertainOrders(v.certain, i);
        assert i in t.ids && IsCertain(v.certain, i, o);
      }
    }
  }

  lemma SubsetSkips(st: State, v: Work, s: Subset, next: nat)
    requires SubsetOk(st, v, s, next)
    ensures SubsetOk(st, v, s, next + 1)
  {
  }

  // ----- Nothing is missed: the multiplicity cut loses no naked subset -----

  /** How many cards the subset still needs before it is naked. */
  function Excess(st: State, s: Subset): int
    requires st.WellFormed()
  {
    Multiplicity(st, ArrayOf(s.ids, st.NumSuits())) - |s.certains|
  }

  predicate Naked(st: State, s: Subset)
    requires st.WellFormed()
  {
    |s.contained| >= 2 && Excess(st, s) == |s.contained|
  }

  /** The subset reached by including (true) or skipping (false) the candidates from position next on. */
  ghost function Reached(v: Work, s: Subset, next: nat, picks: seq<bool>): Subset
    decreases |picks|
  {
    if picks == [] || next >= |v.candidates| then s
    else Reached(v, if picks[0] then Take(v, s, next) else s, next + 1, picks[1..])
  }

  /** Known copies never exceed the copies that are on no stack. */
  ghost predicate WithinCounts(st: State, m: CertainMap)
    requires st.WellFormed()
  {
    forall i | st.ValidId(i) :: |CertainOrders(m, i)| + st.BaseCount(i) <= st.CardCount(i)
  }

  lemma {:induction false} MultiplicityAppend(st: State, a: seq<Id>, i: Id)
    requires st.WellFormed()
    ensures Multiplicity(st, a + [i]) == Multiplicity(st, a) + st.CardCount(i) - st.BaseCount(i)
  {
    if a != [] {
      assert (a + [i])[1..] == a[1..] + [i];
      MultiplicityAppend(st, a[1..], i);
    }
  }

  lemma MultiplicityUpTo(st: State, a: set<Id>, n: nat)
    requires st.WellFormed() && n > 0
    ensures Multiplicity(st, ArrayUpTo(a, n)) == Multiplicity(st, ArrayUpTo(a, n - 1))
              + if IdAt(n - 1) in a then st.CardCount(IdAt(n - 1)) - st.BaseCount(IdAt(n - 1)) else 0
  {
    MultiplicityAppend(st, ArrayUpTo(a, n - 1), IdAt(n - 1));
  }

  lemma {:induction false} MultiplicityUnion(st: State, a: set<Id>, b: set<Id>, n: nat)
    requires st.WellFormed() && a !! b
    ensures Multiplicity(st, ArrayUpTo(a + b, n)) == Multiplicity(st, ArrayUpTo(a, n)) + Multiplicity(st, ArrayUpTo(b, n))
  {
    if n > 0 {
      MultiplicityUnion(st, a, b, n - 1);
      MultiplicityUpTo(st, a + b, n);
      MultiplicityUpTo(st, a, n);
      MultiplicityUpTo(st, b, n);
      hide Multiplicity, ArrayUpTo;
      assert IdAt(n - 1) in a + b <==> IdAt(n - 1) in a || IdAt(n - 1) in b;
      assert !(IdAt(n - 1) in a && IdAt(n - 1) in b);
    }
  }

  /** Certainties about some identities never outnumber their free copies. */
  lemma {:induction false} CertainsBound(st: State, m: CertainMap, ids: seq<Id>)
    requires st.WellFormed() && WithinCounts(st, m)
    requires forall i | i in ids :: st.ValidId(i)
    ensures |AllCertains(m, set i | i in ids)| <= Multiplicity(st, ids)
  {
    var all := set i | i in ids;
    if ids == [] {
      assert AllCertains(m, all) == {};
    } else {
      var rest := set i | i in ids[1..];
      CertainsBound(st, m, ids[1..]);
      var a, b := CertainOrders(m, ids[0]), AllCertains(m, rest);
      assert |a| <= st.CardCount(ids[0]) - st.BaseCount(ids[0]);
      assert AllCertains(m, all) == a + b by {
        assert ids == [ids[0]] + ids[1..];
      }
      hide AllCertains, CertainOrders, WithinCounts;
      UnionSize(a, b);
    }
  }

  lemma TakeExcess(st: State, v: Work, s: Subset, next: nat)
    requires st.WellFormed() && WithinCounts(st, v.certain) && next < |v.candidates|
    requires forall o, i | o in v.thoughts && i in v.thoughts[o].possible :: st.ValidId(i)
    ensures Excess(st, Take(v, s, next)) >= Excess(st, s)
  {
    var item := v.candidates[next];
    var possible := if item.order in v.thoughts then v.thoughts[item.order].possible else {};
    var added := possible - s.ids;
    var t := Take(v, s, next);
    assert t.ids == s.ids + added;
    MultiplicityUnion(st, s.ids, added, st.NumSuits() * MAX_RANK);
    assert forall i | i in added :: st.ValidId(i);
    ArrayOfIsExact(added, st.NumSuits());
    assert (set i | i in ArrayOf(added, st.NumSuits())) == added;
    CertainsBound(st, v.certain, ArrayOf(added, st.NumSuits()));
    var newly := AllCertains(v.certain, added);
    SubsetCardinality(t.certains, s.certains + newly);
    UnionSize(s.certains, newly);
  }

  lemma {:induction false} ReachedBounds(st: State, v: Work, s: Subset, next: nat, picks: seq<bool>)
    requires st.WellFormed() && WithinCounts(st, v.certain) && next <= |v.candidates|
    requires forall o, i | o in v.thoughts && i in v.thoughts[o].possible :: st.ValidId(i)
    ensures Excess(st, Reached(v, s, next, picks)) >= Excess(st, s)
    ensures |Reached(v, s, next, picks).contained| <= |s.contained| + (|v.candidates| - next)
    decreases |picks|
  {
    if picks != [] && next < |v.candidates| {
      if picks[0] {
        TakeExcess(st, v, s, next);
        ReachedBounds(st, v, Take(v, s, next), next + 1, picks[1..]);
      } else {
        ReachedBounds(st, v, s, next + 1, picks[1..]);
      }
    }
  }

  /** The cut of gen_subset: where it fires, no extension of the subset is naked. */
  lemma CutIsLossless(st: State, v: Work, s: Subset, next: nat, picks: seq<bool>)
    requires st.WellFormed() && WithinCounts(st, v.certain) && next <= |v.candidates|
    requires forall o, i | o in v.thoughts && i in v.thoughts[o].possible :: st.ValidId(i)
    requires Excess(st, s) > |s.contained| + (|v.candidates| - next)
    ensures !Naked(st, Reached(v, s, next, picks))
  {
    ReachedBounds(st, v, s, next, picks);
  }

  /** No card outside the hands of the subset could still lose one of its identities. */
  ghost predicate Settled(st: State, v: Work, s: Subset) {
    forall i, e | i in s.ids && e in Entries(st) && e.order in v.thoughts :: !Targeted(v, i, PlayersOf(s.contained), e)
  }

  ghost predicate AnyTargeted(st: State, v: Work, id: Id, exclude: set<nat>)
    requires InThoughts(v, Entries(st))
  {
    exists e :: e in Entries(st) && Targeted(v, id, exclude, e)
  }

  /** Removing the first k identities outside the hands of the subset would change nothing. */
  ghost predicate Unhit(st: State, v: Work, s: Subset, ids: seq<Id>, k: nat) {
    forall j | 0 <= j < k && j < |ids| && InThoughts(v, Entries(st)) :: !AnyTargeted(st, v, ids[j], PlayersOf(s.contained))
  }

  lemma UnhitSettled(st: State, v: Work, s: Subset, ids: seq<Id>)
    requires InThoughts(v, Entries(st)) && forall i :: i in ids <==> i in s.ids
    ensures Unhit(st, v, s, ids, |ids|) <==> Settled(st, v, s)
    ensures Settled(st, v, s) ==> forall k | 0 <= k < |ids| :: !AnyTargeted(st, v, ids[k], PlayersOf(s.contained))
  {
    hide Targeted;
    if Unhit(st, v, s, ids, |ids|) {
      forall i, e | i in s.ids && e in Entries(st)
        ensures !Targeted(v, i, PlayersOf(s.contained), e)
      {
        var j :| 0 <= j < |ids| && ids[j] == i;
        assert !AnyTargeted(st, v, ids[j], PlayersOf(s.contained));
      }
    }
  }

  lemma UnhitNext(st: State, v0: Work, v1: Work, v2: Work, s: Subset, ids: seq<Id>, k: nat)
    requires k < |ids| && Steps(v0, v1, Entries(st)) && Steps(v1, v2, Entries(st))
    requires InThoughts(v0, Entries(st)) && InThoughts(v1, Entries(st))
    requires Size(v1, Entries(st)) == Size(v0, Entries(st)) ==> Unhit(st, v0, s, ids, k)
    requires AnyTargeted(st, v1, ids[k], PlayersOf(s.contained)) ==> Size(v2, Entries(st)) < Size(v1, Entries(st))
    ensures Size(v2, Entries(st)) == Size(v0, Entries(st)) ==> Unhit(st, v0, s, ids, k + 1)
  {
    hide Steps, Targeted, Size;
    Chain(v0, v1, v2, Entries(st));
    TargetedAlike(v0, v1, ids[k], PlayersOf(s.contained), Entries(st));
    if Size(v2, Entries(st)) == Size(v0, Entries(st)) {
      assert !AnyTargeted(st, v1, ids[k], PlayersOf(s.contained));
      assert forall e | e in Entries(st) :: !Targeted(v1, ids[k], PlayersOf(s.contained), e);
    }
  }

  /** Every naked subset that extends s is settled. */
  ghost predicate Exhaustive(st: State, v: Work, s: Subset, next: nat)
    requires st.WellFormed()
  {
    WithinCounts(st, v.certain) && next <= |v.candidates| ==>
      forall picks: seq<bool> | Naked(st, Reached(v, s, next, picks)) :: Settled(st, v, Reached(v, s, next, picks))
  }

  // ----- What a search that reports nothing has found -----

  /** A card of the subset is identified, so that its identity may be removed elsewhere on its account. */
  ghost predicate KnownMember(st: State, v: Work, s: Subset) {
    exists e :: e in s.contained && e.order in v.thoughts && e.order < |st.deck|
                && KnownIdentity(st.deck[e.order], v.thoughts[e.order]).Some?
  }

  /** All copies of one of the subset's identities are on stacks or certain. */
  ghost predicate SomeAllKnown(st: State, v: Work, s: Subset)
    requires st.WellFormed()
  {
    exists i :: i in s.ids && st.ValidId(i) && AllKnown(st, v, i)
  }

  /** Some card outside would lose the last of the subset's identities. */
  ghost predicate LastTargeted(st: State, v: Work, s: Subset) {
    var ids := ArrayOf(s.ids, st.NumSuits());
    ids != [] && exists e :: e in Entries(st) && e.order in v.thoughts && Targeted(v, ids[|ids| - 1], PlayersOf(s.contained), e)
  }

  /** What perform_elim removes for the subset, if anything, it need not report: it only reports what the last identity
      does, or basic_elim. */
  ghost predicate Unreported(st: State, v: Work, s: Subset)
    requires st.WellFormed()
  {
    KnownMember(st, v, s) || SomeAllKnown(st, v, s) || (!Settled(st, v, s) && !LastTargeted(st, v, s))
  }

  /** Some naked subset that extends s may be eliminated without a report. */
  ghost predicate Muted(st: State, v: Work, s: Subset, next: nat)
    requires st.WellFormed()
  {
    exists picks: seq<bool> :: Naked(st, Reached(v, s, next, picks)) && Unreported(st, v, Reached(v, s, next, picks))
  }

  lemma MutedHere(st: State, v: Work, s: Subset, next: nat)
    requires st.WellFormed() && Naked(st, s) && Unreported(st, v, s)
    ensures Muted(st, v, s, next)
  {
    assert Reached(v, s, next, []) == s;
  }

  lemma MutedLater(st: State, v: Work, s: Subset, next: nat, taken: bool)
    requires st.WellFormed() && next < |v.candidates| && Muted(st, v, if taken then Take(v, s, next) else s, next + 1)
    ensures Muted(st, v, s, next)
  {
    var t := if taken then Take(v, s, next) else s;
    var picks: seq<bool> :| Naked(st, Reached(v, t, next + 1, picks)) && Unreported(st, v, Reached(v, t, next + 1, picks));
    assert ([taken] + picks)[1..] == picks;
    assert Reached(v, s, next, [taken] + picks) == Reached(v, t, next + 1, picks);
  }

  /** A card that could lose an identity of the subset still can after the identities before it were removed. */
  lemma StillTargeted(st: State, start: seq<Card>, v0: Work, v1: Work, id: Id, exclude: set<nat>, e: Entry)
    requires st.WellFormed() && Sound(st, start, v1) && Refines(v0, v1) && Feasible(st, start) && NoneElsewhere(st, start, v0, id, exclude)
    requires e in Entries(st) && e.order in v0.thoughts && Targeted(v0, id, exclude, e) && id in v1.thoughts[e.order].possible
    ensures Targeted(v1, id, exclude, e)
  {
    var w: Deal :| Consistent(w, st, start);
    assert Agrees(w, st, v1) && Spares(w, v0, id, exclude, Entries(st));
  }

  /** Both continuations past candidate next are exhaustive. */
  ghost predicate BothBranches(st: State, v: Work, s: Subset, next: nat) {
    && st.WellFormed() && next < |v.candidates|
    && Exhaustive(st, v, Take(v, s, next), next + 1) && Exhaustive(st, v, s, next + 1)
  }

  lemma CutExhaustive(st: State, start: seq<Card>, v: Work, s: Subset, next: nat)
    requires Ok(st, start, v) && Excess(st, s) > |s.contained| + (|v.candidates| - next)
    ensures Exhaustive(st, v, s, next)
  {
    OkBasics(st, start, v);
    hide Ok;
    if WithinCounts(st, v.certain) && next <= |v.candidates| {
      forall picks: seq<bool>
        ensures !Naked(st, Reached(v, s, next, picks))
      {
        CutIsLossless(st, v, s, next, picks);
      }
    }
  }

  lemma LastExhaustive(st: State, v: Work, s: Subset, next: nat)
    requires st.WellFormed() && next >= |v.candidates|
    requires Naked(st, s) ==> Settled(st, v, s)
    ensures Exhaustive(st, v, s, next)
  {
  }

  lemma BothExhaustive(st: State, v: Work, s: Subset, next: nat)
    requires st.WellFormed() && next < |v.candidates|
    requires Naked(st, s) ==> Settled(st, v, s)
    requires BothBranches(st, v, s, next)
    ensures Exhaustive(st, v, s, next)
  {
    forall picks: seq<bool> | WithinCounts(st, v.certain) && Naked(st, Reached(v, s, next, picks))
      ensures Settled(st, v, Reached(v, s, next, picks))
    {
      if picks != [] {
        var t := Reached(v, if picks[0] then Take(v, s, next) else s, next + 1, picks[1..]);
        assert Reached(v, s, next, picks) == t;
      }
    }
  }

  /** The search depends on beliefs, certainties and candidates only. */
  lemma {:induction false} ReachedSame(v0: Work, v1: Work, s: Subset, next: nat, picks: seq<bool>)
    requires v1 == v0.(eliminated := v1.eliminated)
    ensures Reached(v0, s, next, picks) == Reached(v1, s, next, picks)
    decreases |picks|
  {
    if picks != [] && next < |v0.candidates| {
      ReachedSame(v0, v1, if picks[0] then Take(v0, s, next) else s, next + 1, picks[1..]);
    }
  }

  lemma ExhaustiveSame(st: State, v0: Work, v1: Work, s: Subset, next: nat)
    requires st.WellFormed() && v1 == v0.(eliminated := v1.eliminated)
    requires Exhaustive(st, v1, s, next)
    ensures Exhaustive(st, v0, s, next)
  {
    forall picks: seq<bool> | WithinCounts(st, v0.certain) && next <= |v0.candidates| && Naked(st, Reached(v0, s, next, picks))
      ensures Settled(st, v0, Reached(v0, s, next, picks))
    {
      ReachedSame(v0, v1, s, next, picks);
      SettledSame(st, v0, v1, Reached(v0, s, next, picks));
    }
  }

  lemma SettledSame(st: State, v0: Work, v1: Work, s: Subset)
    requires v1 == v0.(eliminated := v1.eliminated)
    ensures Settled(st, v0, s) == Settled(st, v1, s)
  {
    assert forall i, e: Entry, ps | e.order in v0.thoughts :: Targeted(v0, i, ps, e) == Targeted(v1, i, ps, e);
  }

  lemma ExtendExhaustive(st: State, v0: Work, v1: Work, s: Subset, next: nat)
    requires st.WellFormed() && v1 == v0.(eliminated := v1.eliminated) && next < |v1.candidates|
    requires Naked(st, s) ==> Settled(st, v0, s)
    requires BothBranches(st, v1, s, next)
    ensures Exhaustive(st, v0, s, next)
  {
    SettledSame(st, v0, v1, s);
    BothExhaustive(st, v1, s, next);
    ExhaustiveSame(st, v0, v1, s, next);
  }

  lemma SkipReady(st: State, v0: Work, v1: Work, s: Subset, next: nat)
    requires SubsetOk(st, v0, s, next) && Steps(v0, v1, Entries(st))
    ensures SubsetOk(st, v1, s, next + 1) && |v1.candidates| <= |v0.candidates|
  {
    SubsetStays(st, v0, v1, s, next);
    SubsetSkips(st, v1, s, next);
  }

  lemma BranchesJoin(st: State, v0: Work, v1: Work, v2: Work, s: Subset, next: nat)
    requires st.WellFormed() && next < |v0.candidates|
    requires Steps(v0, v1, Entries(st)) && Steps(v1, v2, Entries(st))
    requires Size(v1, Entries(st)) == Size(v0, Entries(st)) ==> Exhaustive(st, v0, Take(v0, s, next), next + 1)
    requires Size(v2, Entries(st)) == Size(v1, Entries(st)) ==> Exhaustive(st, v1, s, next + 1)
    ensures Size(v2, Entries(st)) == Size(v0, Entries(st)) ==> BothBranches(st, v0, s, next)
  {
    hide Exhaustive, Take;
    StepsUse(v0, v1, Entries(st));
    StepsUse(v1, v2, Entries(st));
    if Size(v2, Entries(st)) == Size(v0, Entries(st)) {
      ExhaustiveSame(st, v0, v1, s, next + 1);
    }
  }

  lemma TargetedAlike(v0: Work, v1: Work, id: Id, exclude: set<nat>, es: seq<Entry>)
    requires Steps(v0, v1, es)
    ensures Size(v1, es) == Size(v0, es) ==>
      forall e: Entry | e.order in v0.thoughts :: e.order in v1.thoughts && Targeted(v0, id, exclude, e) == Targeted(v1, id, exclude, e)
  {
  }

  // ----- What the recursion reaches -----

  /** The candidates picked from position next on. */
  ghost function Chosen(v: Work, next: nat, picks: seq<bool>): seq<Entry>
    decreases |picks|
  {
    if picks == [] || next >= |v.candidates| then []
    else (if picks[0] then [v.candidates[next]] else []) + Chosen(v, next + 1, picks[1..])
  }

  /** What `acc_ids` and `certains` should be for a choice of cards. */
  ghost predicate Faithful(v: Work, s: Subset) {
    && s.ids == (set e, i | e in s.contained && e.order in v.thoughts && i in v.thoughts[e.order].possible :: i)
    && s.certains == AllCertains(v.certain, s.ids) - OrdersOf(s.contained)
  }

  lemma TakeFaithful(v: Work, s: Subset, next: nat)
    requires Faithful(v, s) && next < |v.candidates|
    ensures Faithful(v, Take(v, s, next))
  {
    var t := Take(v, s, next);
    var item := v.candidates[next];
    assert forall e :: e in t.contained <==> e in s.contained || e == item;
    var possible := if item.order in v.thoughts then v.thoughts[item.order].possible else {};
    assert t.ids == s.ids + (possible - s.ids);
    assert AllCertains(v.certain, t.ids) == AllCertains(v.certain, s.ids) + AllCertains(v.certain, possible - s.ids);
    assert OrdersOf(s.contained) <= OrdersOf(t.contained);
  }

  /** The incremental bookkeeping of gen_subset computes, for every choice of candidates, the union of
      their possibilities and the other cards certain to be in that union. */
  lemma {:induction false} ReachedIsFaithful(v: Work, s: Subset, next: nat, picks: seq<bool>)
    requires Faithful(v, s)
    ensures Faithful(v, Reached(v, s, next, picks))
    ensures Reached(v, s, next, picks).contained == s.contained + Chosen(v, next, picks)
    decreases |picks|
  {
    if picks != [] && next < |v.candidates| {
      if picks[0] {
        TakeFaithful(v, s, next);
        ReachedIsFaithful(v, Take(v, s, next), next + 1, picks[1..]);
        assert s.contained + [v.candidates[next]] + Chosen(v, next + 1, picks[1..]) == s.contained + Chosen(v, next, picks);
      } else {
        ReachedIsFaithful(v, s, next + 1, picks[1..]);
        assert [] + Chosen(v, next + 1, picks[1..]) == Chosen(v, next, picks);
      }
    } else {
      assert s.contained + [] == s.contained;
    }
  }
}
