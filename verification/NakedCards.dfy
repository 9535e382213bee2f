// What `cross_elim` achieves, said about cards: when no possibility can be removed any more, no group of cards
// that takes up all copies of its identities leaves one of them possible on a card elsewhere.
module NakedCards {
  import opened Cards
  import opened GameState
  import opened Beliefs
  import opened Elimination
  import opened NakedSubsets

  // ----- The certainties that card_elim starts from -----

  /** The certainties are the cards that this viewer identifies. */
  lemma {:induction false} InitialOrders(start: seq<Card>, common: bool, es: seq<Entry>, k: nat, i: Id, o: Order)
    requires k <= |es| && forall e | e in es :: e.order < |start|
    ensures IsCertain(InitialCertain(start, common, es, k), i, o) <==>
              exists j :: 0 <= j < k && es[j].order == o && start[o].Identity(common) == Some(i)
  {
    if k > 0 {
      InitialOrders(start, common, es, k - 1, i, o);
      InitialCertainStep(start, common, es, k - 1);
    }
  }

  /** Hidden from their holders are the identified cards whose identity does not follow from their possibilities. */
  lemma {:induction false} InitialHidden(start: seq<Card>, common: bool, es: seq<Entry>, k: nat, i: Id, p: nat)
    requires k <= |es| && OrdersDistinct(es) && forall e | e in es :: e.order < |start|
    ensures UnknownTo(InitialCertain(start, common, es, k), i, p) <==>
              exists j :: 0 <= j < k && es[j].player == p && HiddenAs(start, common, es[j].order, i)
  {
    hide UnknownTo, InsertCertain, Card.Identity;
    if k == 0 {
      NothingHidden(i, p);
    } else {
      InitialHidden(start, common, es, k - 1, i, p);
      InitialCertainStep(start, common, es, k - 1);
      var (m, e) := (InitialCertain(start, common, es, k - 1), es[k - 1]);
      InitialOrders(start, common, es, k - 1, i, e.order);
      assert !IsCertain(m, i, e.order);
      var id := start[e.order].Identity(common);
      if id.Some? {
        HiddenMore(m, id.value, e.order, if start[e.order].Identity(true).None? then {e.player} else {}, i, p);
      }
    }
  }

  predicate HiddenAs(start: seq<Card>, common: bool, o: Order, i: Id)
    requires o < |start|
  {
    start[o].Identity(common) == Some(i) && start[o].Identity(true).None?
  }

  lemma NothingHidden(i: Id, p: nat)
    ensures !UnknownTo(map[], i, p)
  {
  }

  lemma HiddenMore(m: CertainMap, id: Id, o: Order, unknownTo: set<nat>, i: Id, p: nat)
    requires !IsCertain(m, i, o)
    ensures UnknownTo(InsertCertain(m, id, o, unknownTo), i, p) <==> UnknownTo(m, i, p) || (i == id && p in unknownTo)
  {
    var r := InsertCertain(m, id, o, unknownTo);
    if UnknownTo(m, i, p) {
      var x :| x in m[i] && p in m[i][x];
      assert x in r[i] && r[i][x] == m[i][x];
    }
    if i == id && p in unknownTo {
      assert o in r[i] && r[i][o] == unknownTo;
    }
  }

  // ----- Groups of cards -----

  /** At least two identities are possible, one of them still of use; and at most four, or the card has been clued. */
  ghost predicate WorthTrying(st: State, card: Card)
    requires st.WellFormed()
  {
    && (exists i, j :: i in card.possible && j in card.possible && i != j)
    && (exists i :: i in card.possible && (st.ValidId(i) ==> st.playStacks[i.suit] < i.rank <= st.maxRanks[i.suit]))
    && (|card.possible| <= 4 || card.clued)
  }

  lemma CandidatesWorthTrying(st: State, card: Card)
    requires st.WellFormed()
    ensures IsCandidate(st, card) <==> WorthTrying(st, card)
  {
    var s := card.possible;
    if |s| > 1 {
      var i :| i in s;
      assert |s - {i}| > 0;
      var j :| j in s - {i};
    }
    if i, j :| i in s && j in s && i != j {
      SubsetCardinality({i, j}, s);
    }
  }

  /** Two or more held cards that card_elim tries in naked subsets. */
  ghost predicate IsGroup(st: State, start: seq<Card>, group: seq<Entry>)
    requires st.WellFormed()
  {
    && |group| >= 2 && OrdersDistinct(group)
    && forall e | e in group :: e in Entries(st) && e.order < |start| && WorthTrying(st, start[e.order])
  }

  /** The identities that the cards of the group may have. */
  ghost function JointIds(start: seq<Card>, group: seq<Entry>): set<Id> {
    set e, i | e in group && e.order < |start| && i in start[e.order].possible :: i
  }

  /** The held cards that the viewer identifies as i. */
  ghost function IdentifiedAs(st: State, start: seq<Card>, common: bool, i: Id): set<Order> {
    set o | o in HandOrders(st) && o < |start| && start[o].Identity(common) == Some(i)
  }

  /** The other held cards that the viewer identifies as one of ids. */
  ghost function OthersIdentified(st: State, start: seq<Card>, common: bool, ids: set<Id>, group: seq<Entry>): set<Order> {
    set o | o in HandOrders(st) && o < |start| && start[o].Identity(common).Some? && start[o].Identity(common).value in ids
            && o !in OrdersOf(group)
  }

  /** The group takes up all copies of its identities that are on no stack and not identified elsewhere. */
  ghost predicate TakesAll(st: State, start: seq<Card>, common: bool, group: seq<Entry>)
    requires st.WellFormed()
  {
    var ids := JointIds(start, group);
    Multiplicity(st, ArrayOf(ids, st.NumSuits())) - |OthersIdentified(st, start, common, ids, group)| == |group|
  }

  /** A card that is not identified as i may be i, and its holder overlooks no copy of i. */
  ghost predicate StillPossible(st: State, start: seq<Card>, common: bool, e: Entry, i: Id) {
    && e.order < |start| && i in start[e.order].possible && start[e.order].Identity(common) != Some(i)
    && !exists d :: d in Entries(st) && d.player == e.player && d.order < |start| && HiddenAs(start, common, d.order, i)
  }

  /** No card in a hand without a card of the group may have one of the group's identities. */
  ghost predicate GroupSettled(st: State, start: seq<Card>, common: bool, group: seq<Entry>) {
    forall e, i | e in Entries(st) && e.player !in PlayersOf(group) && i in JointIds(start, group) :: !StillPossible(st, start, common, e, i)
  }

  /** The viewer identifies no more copies of anything than there are on no stack. */
  ghost predicate NotOverbooked(st: State, start: seq<Card>, common: bool)
    requires st.WellFormed()
  {
    forall i | st.ValidId(i) :: |IdentifiedAs(st, start, common, i)| + st.BaseCount(i) <= st.CardCount(i)
  }

  /** Nothing is left for `cross_elim` to do. */
  ghost predicate NoNakedGroup(st: State, start: seq<Card>, common: bool)
    requires st.WellFormed()
  {
    NotOverbooked(st, start, common) ==>
      forall group: seq<Entry> | IsGroup(st, start, group) && TakesAll(st, start, common, group) :: GroupSettled(st, start, common, group)
  }

  // ----- From subsets to groups -----

  lemma StartOrders(st: State, start: seq<Card>, common: bool, i: Id)
    requires st.WellFormed() && ThoughtsCover(st, start)
    ensures CertainOrders(CandidateWork(st, start, common).certain, i) == IdentifiedAs(st, start, common, i)
  {
    var (m, es) := (CandidateWork(st, start, common).certain, Entries(st));
    CoversEntries(st, start);
    forall o: Order
      ensures o in CertainOrders(m, i) <==> o in IdentifiedAs(st, start, common, i)
    {
      InitialOrders(start, common, es, |es|, i, o);
      if o in IdentifiedAs(st, start, common, i) {
        EntryOfOrder(st, o);
        var e :| e in es && e.order == o;
        var j :| 0 <= j < |es| && es[j] == e;
      }
      if j :| 0 <= j < |es| && es[j].order == o {
        assert es[j] in es && o in HandOrders(st);
      }
    }
  }

  lemma StartHidden(st: State, start: seq<Card>, common: bool, i: Id, p: nat)
    requires st.WellFormed() && ThoughtsCover(st, start) && DistinctOrders(st)
    ensures UnknownTo(CandidateWork(st, start, common).certain, i, p) <==>
              exists d :: d in Entries(st) && d.player == p && d.order < |start| && HiddenAs(start, common, d.order, i)
  {
    var es := Entries(st);
    CoversEntries(st, start);
    InitialHidden(start, common, es, |es|, i, p);
    if d :| d in es && d.player == p && d.order < |start| && HiddenAs(start, common, d.order, i) {
      var j :| 0 <= j < |es| && es[j] == d;
    }
    if j :| 0 <= j < |es| && es[j].player == p && HiddenAs(start, common, es[j].order, i) {
      assert es[j] in es;
    }
  }

  lemma WithinStartCounts(st: State, start: seq<Card>, common: bool)
    requires st.WellFormed() && ThoughtsCover(st, start) && NotOverbooked(st, start, common)
    ensures WithinCounts(st, CandidateWork(st, start, common).certain)
  {
    forall i | st.ValidId(i)
      ensures |CertainOrders(CandidateWork(st, start, common).certain, i)| + st.BaseCount(i) <= st.CardCount(i)
    {
      StartOrders(st, start, common, i);
    }
  }

  /** Consistent beliefs are not overbooked. */
  lemma FeasibleNotOverbooked(st: State, start: seq<Card>, common: bool)
    requires st.WellFormed() && Feasible(st, start)
    ensures NotOverbooked(st, start, common)
  {
    var w: Deal :| Consistent(w, st, start);
    forall i | st.ValidId(i)
      ensures |IdentifiedAs(st, start, common, i)| + st.BaseCount(i) <= st.CardCount(i)
    {
      forall o | o in IdentifiedAs(st, start, common, i)
        ensures o in Held(w, st, i)
      {
        IdentityRight(w[o], st.deck[o], start[o], common);
      }
      SubsetCardinality(IdentifiedAs(st, start, common, i), Held(w, st, i));
    }
  }

  /** The candidates of the group, picked one by one. */
  ghost function Picks(cs: seq<Entry>, group: seq<Entry>): seq<bool> {
    seq(|cs|, j requires 0 <= j < |cs| => cs[j] in group)
  }

  lemma {:induction false} ChosenMembers(v: Work, next: nat, picks: seq<bool>)
    requires next + |picks| == |v.candidates| && OrdersDistinct(v.candidates)
    ensures forall e :: e in Chosen(v, next, picks) <==> exists j :: 0 <= j < |picks| && picks[j] && v.candidates[next + j] == e
    ensures OrdersDistinct(Chosen(v, next, picks))
    decreases |picks|
  {
    if picks != [] {
      var rest := Chosen(v, next + 1, picks[1..]);
      ChosenMembers(v, next + 1, picks[1..]);
      forall e
        ensures e in Chosen(v, next, picks) <==> exists j :: 0 <= j < |picks| && picks[j] && v.candidates[next + j] == e
      {
        if e in rest {
          var j :| 0 <= j < |picks[1..]| && picks[1..][j] && v.candidates[next + 1 + j] == e;
          assert picks[j + 1] && v.candidates[next + (j + 1)] == e;
        }
        if j :| 0 <= j < |picks| && picks[j] && v.candidates[next + j] == e {
          if j > 0 { assert picks[1..][j - 1] && v.candidates[next + 1 + (j - 1)] == e; }
        }
      }
      forall e | e in rest
        ensures e.order != v.candidates[next].order
      {
        var j :| 0 <= j < |picks[1..]| && picks[1..][j] && v.candidates[next + 1 + j] == e;
      }
    }
  }

  lemma SameMembersSameSize(a: seq<Entry>, b: seq<Entry>)
    requires OrdersDistinct(a) && OrdersDistinct(b) && forall e :: e in a <==> e in b
    ensures |a| == |b| && OrdersOf(a) == OrdersOf(b) && PlayersOf(a) == PlayersOf(b)
  {
    OrdersOfCount(a);
    OrdersOfCount(b);
    assert OrdersOf(a) == OrdersOf(b);
  }

  /** Picking the cards of a group reaches the subset with their identities and the other cards identified as one of them. */
  lemma GroupReached(st: State, start: seq<Card>, common: bool, group: seq<Entry>)
    requires st.WellFormed() && ThoughtsCover(st, start) && DistinctOrders(st) && IsGroup(st, start, group)
    ensures var v := CandidateWork(st, start, common);
            var s := Reached(v, Subset([], {}, {}), 0, Picks(v.candidates, group));
            && |s.contained| == |group| && PlayersOf(s.contained) == PlayersOf(group) && s.ids == JointIds(start, group)
            && s.certains == OthersIdentified(st, start, common, s.ids, group)
  {
    var v := CandidateWork(st, start, common);
    var (cs, empty) := (v.candidates, Subset([], {}, {}));
    var picks := Picks(cs, group);
    var s := Reached(v, empty, 0, picks);
    CandidatesAre(st, start);
    assert Faithful(v, empty);
    ReachedIsFaithful(v, empty, 0, picks);
    assert s.contained == Chosen(v, 0, picks);
    ChosenMembers(v, 0, picks);
    forall e
      ensures e in s.contained <==> e in group
    {
      if e in group {
        CandidatesWorthTrying(st, start[e.order]);
        assert e in cs;
        var j :| 0 <= j < |cs| && cs[j] == e;
        assert picks[j] && cs[0 + j] == e;
      }
    }
    SameMembersSameSize(s.contained, group);
    hide Reached, Chosen, Picks, IsGroup, WorthTrying, IsCandidate;
    GroupSubset(st, start, common, group, s);
  }

  lemma GroupSubset(st: State, start: seq<Card>, common: bool, group: seq<Entry>, s: Subset)
    requires st.WellFormed() && ThoughtsCover(st, start) && Faithful(CandidateWork(st, start, common), s)
    requires (forall e :: e in s.contained <==> e in group) && OrdersOf(s.contained) == OrdersOf(group)
    requires forall e | e in group :: e in Entries(st)
    ensures s.ids == JointIds(start, group) && s.certains == OthersIdentified(st, start, common, s.ids, group)
  {
    var v := CandidateWork(st, start, common);
    assert forall e | e in group :: e.order in HandOrders(st) && e.order < |start|;
    assert forall o | o in HandOrders(st) :: v.thoughts[o] == start[o];
    forall o: Order
      ensures o in AllCertains(v.certain, s.ids) <==>
                o in HandOrders(st) && o < |start| && start[o].Identity(common).Some? && start[o].Identity(common).value in s.ids
    {
      forall i: Id
        ensures o in CertainOrders(v.certain, i) <==> o in IdentifiedAs(st, start, common, i)
      {
        StartOrders(st, start, common, i);
      }
      if o in HandOrders(st) && o < |start| && start[o].Identity(common).Some? && start[o].Identity(common).value in s.ids {
        var i := start[o].Identity(common).value;
        assert i in s.ids && o in CertainOrders(v.certain, i);
      }
    }
  }

  /** Where every naked subset is settled, every group is. */
  lemma ExhaustedGroups(st: State, start: seq<Card>, common: bool)
    requires st.WellFormed() && ThoughtsCover(st, start) && DistinctOrders(st)
    requires |CandidateWork(st, start, common).candidates| <= 1 || Exhaustive(st, CandidateWork(st, start, common), Subset([], {}, {}), 0)
    ensures NoNakedGroup(st, start, common)
  {
    var v := CandidateWork(st, start, common);
    if NotOverbooked(st, start, common) {
      WithinStartCounts(st, start, common);
      forall group: seq<Entry> | IsGroup(st, start, group) && TakesAll(st, start, common, group)
        ensures GroupSettled(st, start, common, group)
      {
        GroupReached(st, start, common, group);
        var s := Reached(v, Subset([], {}, {}), 0, Picks(v.candidates, group));
        ReachedFew(v, Subset([], {}, {}), 0, Picks(v.candidates, group));
        assert Naked(st, s);
        assert Settled(st, v, s);
        hide Exhaustive, Naked, Reached, Picks, IsGroup, TakesAll, CandidateWork, NotOverbooked, WithinCounts;
        SettledGroup(st, start, common, group, s);
      }
    }
  }

  lemma {:induction false} ReachedFew(v: Work, s: Subset, next: nat, picks: seq<bool>)
    requires next <= |v.candidates|
    ensures |Reached(v, s, next, picks).contained| <= |s.contained| + |v.candidates| - next
    decreases |picks|
  {
    if picks != [] && next < |v.candidates| {
      ReachedFew(v, if picks[0] then Take(v, s, next) else s, next + 1, picks[1..]);
    }
  }

  lemma SettledGroup(st: State, start: seq<Card>, common: bool, group: seq<Entry>, s: Subset)
    requires st.WellFormed() && ThoughtsCover(st, start) && DistinctOrders(st) && Settled(st, CandidateWork(st, start, common), s)
    requires PlayersOf(s.contained) == PlayersOf(group) && s.ids == JointIds(start, group)
    ensures GroupSettled(st, start, common, group)
  {
    var v := CandidateWork(st, start, common);
    forall e, i | e in Entries(st) && e.player !in PlayersOf(group) && i in JointIds(start, group)
      ensures !StillPossible(st, start, common, e, i)
    {
      assert e.order in HandOrders(st) && e.order in v.thoughts && v.thoughts[e.order] == start[e.order];
      assert !Targeted(v, i, PlayersOf(s.contained), e);
      StartOrders(st, start, common, i);
      StartHidden(st, start, common, i, e.player);
      assert IsCertain(v.certain, i, e.order) <==> e.order in CertainOrders(v.certain, i);
    }
  }
}
