// The closures of `card_elim` (src/basics/player-elim.js) as methods over their captured variables.
module CardElimination {
  import opened Cards
  import opened GameState
  import opened Beliefs
  import opened Elimination
  import opened NakedSubsets
  import opened NakedCards
  import opened LastRound
  import opened Following

  class CardElim {
    const st: State
    const common: bool                 // playerIndex === -1
    const start: seq<Card>             // this.thoughts
    var thoughts: map<Order, Card>     // newThoughts over this.thoughts
    var certain: CertainMap
    var candidates: seq<Entry>
    var eliminated: set<Id>
    var thrown: bool

    ghost function View(): Work
      reads this
    {
      Work(thoughts, certain, candidates, eliminated, thrown)
    }

    ghost predicate Valid()
      reads this
    {
      Ok(st, start, View()) && Sound(st, start, View())
    }

    constructor (st: State, common: bool, start: seq<Card>)
      requires st.WellFormed() && DistinctOrders(st) && ThoughtsCover(st, start)
      requires forall o, id | o in HandOrders(st) && id in start[o].possible :: st.ValidId(id)
      ensures Valid()
      ensures this.st == st && this.common == common && this.start == start
      ensures candidates == [] && View() == InitialWork(st, start, common, 0, candidates)
    {
      this.st, this.common, this.start := st, common, start;
      thoughts := StartThoughts(st, start);
      certain, candidates, eliminated, thrown := map[], [], {}, false;
    }

    /** The body of update_map's loop for one card that loses id. */
    method Eliminate(o: Order, id: Id) returns (only: Option<Id>)
      requires o in thoughts
      modifies this
      ensures View() == EliminateAt(old(View()), o, id)
      ensures only.Some? ==> thoughts[o].possible == {only.value}
      ensures only.Some? <==> Resolved(old(thoughts)[o], id)
    {
      only := None;
      var card := thoughts[o];
      card := card.(possible := card.possible - {id}, inferred := card.inferred - {id});
      if card.possible == {} {
        thrown := true;
      }
      if card.inferred == {} && !card.reset {
        thoughts := thoughts[o := card.ResetInferences()];
      } else {
        thoughts := thoughts[o := card];
        // Card can be further eliminated
        if |card.possible| == 1 {
          only := Some(TheOne(card.possible));
          certain := InsertCertain(certain, only.value, o, {});
        }
      }
    }

    /** The loop of update_map. */
    method Pass(id: Id, exclude: set<nat>) returns (changed: bool, recursive: seq<Id>, removals: set<Order>)
      requires OrdersDistinct(Entries(st)) && InThoughts(View(), Entries(st))
      modifies this
      ensures Progress(old(View()), View(), id, exclude, Entries(st), |Entries(st)|)
      ensures changed <==> exists e :: e in Entries(st) && Targeted(old(View()), id, exclude, e)
      ensures recursive != [] ==> changed
      ensures !changed ==> View() == old(View()) && removals == {}
      ensures forall i | i in recursive :: exists o :: o in old(thoughts) && i in old(thoughts)[o].possible
      ensures Discovered(old(View()), View(), id, exclude, Entries(st), |Entries(st)|, recursive)
      ensures OthersKept(old(View()), View(), id, exclude, Entries(st), |Entries(st)|)
      ensures removals == ResolvedUpTo(old(View()), id, exclude, Entries(st), |Entries(st)|)
    {
      hide Progress, Discovered, OthersKept, ResolvedUpTo, Resolved, EliminateAt;
      ghost var v0 := View();
      var es := Entries(st);
      removals, changed, recursive := {}, false, [];
      NothingYet(v0, id, exclude, es);
      ProgressFirst(v0, id, exclude, es);
      for k := 0 to |es|
        invariant Progress(v0, View(), id, exclude, es, k)
        invariant changed ==> exists e :: e in es && Targeted(v0, id, exclude, e)
        invariant !changed ==> forall j | 0 <= j < k :: !Targeted(v0, id, exclude, es[j])
        invariant recursive != [] ==> changed
        invariant !changed ==> View() == v0 && removals == {}
        invariant Discovered(v0, View(), id, exclude, es, k, recursive) && OthersKept(v0, View(), id, exclude, es, k)
        invariant removals == ResolvedUpTo(v0, id, exclude, es, k)
      {
        ghost var v1 := View();
        var e := es[k];
        assert e in es;
        ProgressCard(v0, v1, id, exclude, es, k);
        if e.player in exclude || id !in thoughts[e.order].possible
           || IsCertain(certain, id, e.order) || UnknownTo(certain, id, e.player)
        {
          ProgressSkip(v0, v1, id, exclude, es, k);
          PassSkips(v0, v1, id, exclude, es, k, recursive);
          continue;
        }
        ProgressStep(v0, v1, id, exclude, es, k);
        changed := true;
        var only := Eliminate(e.order, id);
        PassTakes(v0, v1, id, exclude, es, k, recursive, only);
        if only.Some? {
          recursive := recursive + [only.value];
          removals := removals + {e.order};
        }
      }
      FoundWerePossible(v0, View(), id, exclude, es, recursive);
    }

    /** Removes id from every card that could still be it, outside the excluded hands,
        unless the card is certain or a copy of id is hidden from its holder. */
    method UpdateMap(id: Id, exclude: set<nat>) returns (changed: bool, recursive: seq<Id>)
      requires Valid() && NoneElsewhere(st, start, View(), id, exclude)
      modifies this
      ensures Valid() && Steps(old(View()), View(), Entries(st))
      ensures forall e | e in Entries(st) :: Removed(old(View()), View(), id, exclude, e)
      ensures changed <==> exists e :: e in Entries(st) && Targeted(old(View()), id, exclude, e)
      ensures changed ==> Size(View(), Entries(st)) < Size(old(View()), Entries(st))
      ensures recursive != [] ==> changed
      ensures !changed ==> View() == old(View())
      ensures forall i | i in recursive :: st.ValidId(i)
      ensures eliminated == old(eliminated)
      ensures PassLeft(old(View()), View(), id, exclude, Entries(st), recursive)
    {
      hide Ok, Sound, Progress, NoneElsewhere, Steps, Removed, Targeted, Size, OrdersDistinct, InThoughts, Refines, Discovered, OthersKept,
        ResolvedUpTo, PassLeft;
      ghost var v0 := View();
      OkBasics(st, start, v0);
      var removals;
      changed, recursive, removals := Pass(id, exclude);
      PossibleValid(st, start, v0, recursive);
      FinishPass(st, start, v0, View(), id, exclude, removals);
      WithoutNothing(candidates);
      StepsReflexive(v0, Entries(st));
      PassKeepsCandidates(v0, View(), id, exclude, Entries(st));
      PassLeaves(v0, View(), id, exclude, Entries(st), recursive, removals);
      candidates := Without(candidates, removals);
    }

    /** One identity of basic_elim: recorded as exhausted and removed, if all its copies are known. */
    method BasicElimOne(id: Id) returns (skipped: bool, changed: bool, recursive: seq<Id>)
      requires Valid() && st.ValidId(id)
      modifies this
      ensures Valid() && Steps(old(View()), View(), Entries(st))
      ensures skipped <==> !AllKnown(st, old(View()), id)
      ensures skipped ==> View() == old(View())
      ensures changed || recursive != [] ==> Size(View(), Entries(st)) < Size(old(View()), Entries(st))
      ensures forall i | i in recursive :: st.ValidId(i)
      ensures forall v0: Work :: Refines(v0, old(View())) && AllKnown(st, v0, id) && Feasible(st, start) ==> Cleared(st, v0, View(), id)
      ensures !skipped ==> PassLeft(old(View()), View(), id, {}, Entries(st), recursive) && changed == AnyTargeted(st, old(View()), id, {})
      ensures !skipped ==> forall e | e in Entries(st) :: Removed(old(View()), View(), id, {}, e)
    {
      ghost var v1 := View();
      OkBasics(st, start, v1);
      hide Ok, Sound, Steps, Size, NoneElsewhere, Targeted, Removed, PassLeft;
      StepsReflexive(v1, Entries(st));
      forall v0: Work | Refines(v0, v1) && AllKnown(st, v0, id) && Feasible(st, start)
        ensures AllKnown(st, v1, id) && CertainOrders(v1.certain, id) == CertainOrders(v0.certain, id)
      {
        AllKnownStays(st, start, v0, v1, id);
      }
      var knownCount := st.BaseCount(id) + |CertainOrders(certain, id)|;
      if knownCount != st.CardCount(id) {
        return true, false, [];
      }
      skipped := false;
      BasicLicence(st, start, v1, id);
      StepsEliminated(v1, id, Entries(st));
      eliminated := eliminated + {id};
      ghost var v2 := View();
      changed, recursive := UpdateMap(id, {});
      EliminatedAside(st, v1, id, View(), recursive);
      Chain(v1, v2, View(), Entries(st));
      forall v0: Work | Refines(v0, v1) && AllKnown(st, v0, id) && Feasible(st, start)
        ensures Cleared(st, v0, View(), id)
      {
        StepsUse(v1, v2, Entries(st));
        StepsUse(v2, View(), Entries(st));
        RefinesTransitive(v0, v1, v2);
        ClearedNow(st, v0, v2, View(), id);
      }
    }

    /** The "typical" empathy operation: known-out identities are removed from every other card. The last identity that is
        fully accounted for decides what is reported, and what its own removals reveal is eliminated as well. */
    method BasicElim(identities: seq<Id>) returns (changed: bool)
      requires Valid() && forall i | i in identities :: st.ValidId(i)
      modifies this
      ensures Valid() && Steps(old(View()), View(), Entries(st)) && st.WellFormed()
      ensures changed ==> Size(View(), Entries(st)) < Size(old(View()), Entries(st))
      ensures Feasible(st, start) ==> AllCleared(st, old(View()), View(), identities)
      ensures (forall i | i in identities :: !AllKnown(st, old(View()), i)) ==> View() == old(View()) && !changed
      ensures Feasible(st, start) && Distinct(identities) ==>
                forall k | 0 <= k < |identities| && LastKnown(st, old(View()), View(), identities, k) ::
                  && Followed(st, old(View()), View(), identities[k])
                  && (AnyTargeted(st, old(View()), identities[k], {}) ==> changed)
      decreases Size(View(), Entries(st))
    {
      hide Ok, Sound, NoneElsewhere, Steps, Removed, Targeted, Size, Cleared, Consistent, AllKnown, Refines, Feasible, LastTurn, Followed, AnyTargeted;
      ghost var v0 := View();
      StepsReflexive(v0, Entries(st));
      OkBasics(st, start, v0);
      changed := false;
      var recursive: seq<Id> := [];
      ghost var turn: int := -1;
      ghost var before := v0;
      LastTurnFirst(st, start, v0, identities);
      for k := 0 to |identities|
        invariant Valid() && st.WellFormed() && Steps(v0, View(), Entries(st))
        invariant changed || recursive != [] ==> Size(View(), Entries(st)) < Size(v0, Entries(st))
        invariant forall i | i in recursive :: st.ValidId(i)
        invariant Feasible(st, start) ==> AllCleared(st, v0, View(), identities[..k])
        invariant (forall i | i in identities :: !AllKnown(st, v0, i)) ==> View() == v0 && !changed && recursive == []
        invariant Feasible(st, start) && Distinct(identities) ==> LastTurn(st, start, v0, before, View(), identities, k, turn, recursive, changed)
      {
        ghost var v1 := View();
        StepsUse(v0, v1, Entries(st));
        assert identities[..k + 1] == identities[..k] + [identities[k]] && identities[k] in identities;
        var skipped, c, r := BasicElimOne(identities[k]);
        StepsUse(v1, View(), Entries(st));
        if Feasible(st, start) && Distinct(identities) {
          if skipped {
            LastTurnSkips(st, start, v0, before, v1, identities, k, turn, recursive, changed);
          } else {
            LastTurnMoves(st, start, v0, before, v1, View(), identities, k, turn, recursive, changed, r, c);
          }
        }
        if !skipped {
          changed, recursive, turn, before := c, r, k, v1;
        }
        Chain(v0, v1, View(), Entries(st));
        if Feasible(st, start) {
          ClearedStays(st, v0, v1, View(), identities[..k]);
          AllClearedMore(st, v0, View(), identities[..k], identities[k]);
        }
      }
      assert identities[..|identities|] == identities;
      ghost var v3 := View();
      StepsReflexive(v3, Entries(st));
      StepsUse(v0, v3, Entries(st));
      if recursive != [] {
        var unused := BasicElim(recursive);
        Chain(v0, v3, View(), Entries(st));
        StepsUse(v3, View(), Entries(st));
        if Feasible(st, start) {
          ClearedStays(st, v0, v3, View(), identities);
        }
      }
      StepsUse(v3, View(), Entries(st));
      if Feasible(st, start) && Distinct(identities) {
        assert recursive == [] ==> AllCleared(st, v3, View(), recursive);
        LastTurnEnds(st, start, v0, before, v3, View(), identities, turn, recursive, changed);
      }
    }

    /** The turn of one key in the first part of perform_elim. */
    method ElimGroup(entries: seq<Entry>, ident: map<Order, Option<Id>>, id: Id, ghost v0: Work) returns (skipped: bool, changed: bool)
      requires Valid() && Ok(st, start, v0) && Sound(st, start, v0) && Steps(v0, View(), Entries(st)) && IdentsRight(st, start, ident)
      requires OrdersDistinct(entries) && (forall e | e in entries :: e in Entries(st)) && Group(entries, ident, id) != []
      requires GroupedBy(st, v0, entries, ident)
      modifies this
      ensures Valid() && Steps(old(View()), View(), Entries(st)) && st.WellFormed()
      ensures skipped ==> View() == old(View())
      ensures !skipped && changed ==> Size(View(), Entries(st)) < Size(old(View()), Entries(st))
      ensures Feasible(st, start) ==> GroupDone(st, v0, View(), entries, id)
    {
      hide Ok, Sound, NoneElsewhere, Steps, Removed, Targeted, Size, IdentsRight, OrdersDistinct, Feasible, GroupDone, Refines;
      ghost var v1 := View();
      OkBasics(st, start, v1);
      StepsUse(v0, v1, Entries(st));
      StepsReflexive(v1, Entries(st));
      var group := Group(entries, ident, id);
      skipped, changed := |group| < Multiplicity(st, [id]) - |OtherCertains(certain, id, group)|, false;
      if !skipped {
        GroupLicence(st, start, v1, entries, ident, id);
        var unused;
        changed, unused := UpdateMap(id, PlayersOf(group));
      }
      StepsUse(v1, View(), Entries(st));
      if Feasible(st, start) {
        GroupStep(st, start, v0, v1, View(), entries, ident, id);
      }
    }

    /** perform_elim, first part: known copies inside the subset rule the identity out elsewhere. */
    method ElimGroups(entries: seq<Entry>) returns (changed: bool)
      requires Valid() && OrdersDistinct(entries) && forall e | e in entries :: e in Entries(st)
      modifies this
      ensures Valid() && Steps(old(View()), View(), Entries(st)) && st.WellFormed()
      ensures changed ==> Size(View(), Entries(st)) < Size(old(View()), Entries(st))
      ensures NoneKnown(st, old(thoughts), entries) ==> View() == old(View())
      ensures Feasible(st, start) ==> GroupsDone(st, old(View()), View(), entries)
    {
      hide Ok, Sound, Steps, Size, IdentsRight, OrdersDistinct, Feasible, GroupDone, GroupsDone, NoneKnown, GroupedBy, KeysDone, Group, Refines;
      ghost var v0 := View();
      StepsReflexive(v0, Entries(st));
      OkBasics(st, start, v0);
      changed := false;
      var ident := IdentMap(entries);
      var keys := GroupKeys(entries, ident, {});
      KeysHaveGroups(st, v0, entries, ident);
      NoKeysDone(st, v0, entries, keys);
      for k := 0 to |keys|
        invariant Valid() && Steps(v0, View(), Entries(st))
        invariant changed ==> Size(View(), Entries(st)) < Size(v0, Entries(st))
        invariant keys == [] ==> View() == v0
        invariant Feasible(st, start) ==> KeysDone(st, v0, View(), entries, keys, k)
      {
        ghost var v1 := View();
        var skipped, any := ElimGroup(entries, ident, keys[k], v0);
        if !skipped {
          changed := any;
        }
        StepsUse(v1, View(), Entries(st));
        if Feasible(st, start) { KeysDoneNext(st, v0, v1, View(), entries, keys, k); }
        Chain(v0, v1, View(), Entries(st));
      }
      if Feasible(st, start) {
        AllKeysDone(st, v0, View(), entries, ident);
      }
    }

    /** The grouping key of each card: its visible identity, or else what is thought of it. */
    method IdentMap(entries: seq<Entry>) returns (ident: map<Order, Option<Id>>)
      requires Valid() && forall e | e in entries :: e in Entries(st)
      ensures IdentsRight(st, start, ident) && GroupedBy(st, View(), entries, ident)
    {
      OkBasics(st, start, View());
      assert forall e | e in entries :: e.order in HandOrders(st);
      ident := map o | o in OrdersOf(entries) :: KnownIdentity(st.deck[o], thoughts[o]);
      IdentsAreRight(st, start, View(), ident);
    }

    /** perform_elim, second part: the subset's identities are removed outside the hands holding it. */
    method ElimIdentities(s: Subset, ghost next: nat) returns (changed: bool)
      requires Valid() && SubsetOk(st, View(), s, next) && Excess(st, s) == |s.contained|
      modifies this
      ensures Valid() && Steps(old(View()), View(), Entries(st))
      ensures changed ==> Size(View(), Entries(st)) < Size(old(View()), Entries(st))
      ensures Size(View(), Entries(st)) == Size(old(View()), Entries(st)) ==> Settled(st, old(View()), s)
      ensures Settled(st, old(View()), s) ==> View() == old(View())
      ensures Feasible(st, start) && LastTargeted(st, old(View()), s) ==> changed
      ensures Feasible(st, start) ==> SubsetDone(st, old(View()), View(), s)
      ensures InsideKept(st, old(View()), View(), s)
    {
      hide Ok, Sound, NoneElsewhere, Steps, Removed, Targeted, Size, SubsetOk, Feasible, Settled, Unhit, Untried, LastTargeted, DoneUpTo,
        SubsetDone, InsideKept;
      ghost var v0 := View();
      SubsetBasics(st, v0, s, next);
      OkBasics(st, start, v0);
      ArrayOfIsExact(s.ids, st.NumSuits());
      StepsReflexive(v0, Entries(st));
      var ids := ArrayOf(s.ids, st.NumSuits());
      UnhitSettled(st, v0, s, ids);
      FirstUnhit(st, v0, s, ids);
      LastNeedsIds(st, v0, s);
      changed := false;
      for k := 0 to |ids|
        invariant Valid() && Steps(v0, View(), Entries(st))
        invariant changed ==> Size(View(), Entries(st)) < Size(v0, Entries(st))
        invariant Size(View(), Entries(st)) == Size(v0, Entries(st)) ==> Unhit(st, v0, s, ids, k)
        invariant Settled(st, v0, s) ==> View() == v0
        invariant Untried(st, v0, View(), ids, k)
        invariant Feasible(st, start) ==> DoneUpTo(st, v0, View(), s, ids, k)
        invariant InsideKept(st, v0, View(), s)
        invariant Feasible(st, start) && k == |ids| && LastTargeted(st, v0, s) ==> changed
      {
        ghost var v1 := View();
        OkBasics(st, start, v1);
        StepsUse(v0, v1, Entries(st));
        NakedSubsetLicence(st, start, v0, s, next, ids[k]);
        SubsetStays(st, v0, v1, s, next);
        NakedSubsetLicence(st, start, v1, s, next, ids[k]);
        var unused;
        changed, unused := UpdateMap(ids[k], PlayersOf(s.contained));
        if Feasible(st, start) && k == |ids| - 1 && LastTargeted(st, v0, s) {
          LastStillTargeted(st, start, v0, v1, s, ids);
        }
        StepsUse(v1, View(), Entries(st));
        UntriedNext(st, v0, v1, View(), ids, k, PlayersOf(s.contained));
        UnhitNext(st, v0, v1, View(), s, ids, k);
        OkBasics(st, start, View());
        if Feasible(st, start) { DoneNext(st, start, v0, v1, View(), s, ids, k); }
        RefinesKeys(v1, View());
        InsideKeptNext(st, v0, v1, View(), s, ids[k]);
        Chain(v0, v1, View(), Entries(st));
      }
      if Feasible(st, start) { DoneAll(st, v0, View(), s, ids); }
    }

    /** There are N cards for N identities: everyone knows they hold what they cannot see. */
    method PerformElim(s: Subset, ghost next: nat) returns (changed: bool)
      requires Valid() && SubsetOk(st, View(), s, next) && Excess(st, s) == |s.contained|
      modifies this
      ensures Valid() && Steps(old(View()), View(), Entries(st))
      ensures changed ==> Size(View(), Entries(st)) < Size(old(View()), Entries(st))
      ensures Size(View(), Entries(st)) == Size(old(View()), Entries(st)) ==> Settled(st, old(View()), s)
      ensures Feasible(st, start) && !changed && !Unreported(st, old(View()), s) ==> View() == old(View()) && Settled(st, old(View()), s)
      ensures st.WellFormed() && (Feasible(st, start) ==> GroupsDone(st, old(View()), View(), s.contained) && SubsetDone(st, old(View()), View(), s))
      ensures Feasible(st, start) && NoneKnown(st, old(thoughts), s.contained) ==> LastReported(st, old(View()), View(), s, changed)
    {
      hide Ok, Sound, Steps, Size, SubsetOk, Settled, Unreported, LastTargeted, AllKnown, NoneKnown, Feasible, GroupsDone, SubsetDone, InsideKept,
        LastReported, LastKnown, Followed;
      ghost var v0 := View();
      SubsetBasics(st, v0, s, next);
      OkBasics(st, start, v0);
      ArrayOfIsExact(s.ids, st.NumSuits());
      QuietSubset(st, start, v0, s, next);
      changed := ElimGroups(s.contained);
      ghost var v1 := View();
      StepsUse(v0, v1, Entries(st));
      SubsetStays(st, v0, v1, s, next);
      // The outcome of the first part is overwritten unless there is nothing to remove
      var outside := ElimIdentities(s, next);
      if s.ids != {} {
        changed := outside;
      }
      ghost var v2 := View();
      Chain(v0, v1, v2, Entries(st));
      var basic := BasicElim(ArrayOf(s.ids, st.NumSuits()));
      Chain(v0, v2, View(), Entries(st));
      changed := basic || changed;
      if Feasible(st, start) {
        StepsUse(v1, v2, Entries(st));
        OkBasics(st, start, v2);
        BasicReports(st, start, v1, v2, View(), s, changed);
        PerformDone(st, start, v0, v1, v2, View(), s, next);
      }
      if Size(View(), Entries(st)) == Size(v0, Entries(st)) {
        StepsUse(v0, v1, Entries(st));
        SettledSame(st, v0, v1, s);
      }
    }

    /** Tries every subset of candidates that extends s with candidates from position next on. */
    method GenSubset(s: Subset, next: nat) returns (found: bool)
      requires Valid() && SubsetOk(st, View(), s, next)
      modifies this
      ensures Valid() && Steps(old(View()), View(), Entries(st))
      ensures found ==> Size(View(), Entries(st)) < Size(old(View()), Entries(st))
      ensures Size(View(), Entries(st)) == Size(old(View()), Entries(st)) ==> Exhaustive(st, old(View()), s, next)
      ensures Feasible(st, start) && !found ==> Closed(st, old(View()), View(), s, next)
      decreases |candidates| - next
    {
      hide Ok, Sound, Steps, Size, SubsetOk, Excess, Settled, Exhaustive, BothBranches, Feasible, Unreported, Muted;
      OkBasics(st, start, View());
      ghost var v0 := View();
      StepsReflexive(v0, Entries(st));

      // Impossible to reach multiplicity
      if Excess(st, s) > |s.contained| + (|candidates| - next) {
        CutExhaustive(st, start, v0, s, next);
        return false;
      }
      if |s.contained| >= 2 && Excess(st, s) == |s.contained| {
        assert Naked(st, s);
        var changed := PerformElim(s, next);
        if changed {
          return true;
        }
        if Unreported(st, v0, s) { MutedHere(st, v0, s, next); }
      }
      ghost var v1 := View();
      StepsUse(v0, v1, Entries(st));
      SubsetStays(st, v0, v1, s, next);
      ThinnedLength(v0, v1);
      if next >= |candidates| {
        if Size(v1, Entries(st)) == Size(v0, Entries(st)) {
          LastExhaustive(st, v0, s, next);
        }
        if Feasible(st, start) && !Muted(st, v0, s, next) {
          LastExhaustive(st, v0, s, next);
        }
        return false;
      }
      found := Branch(s, next);
      Chain(v0, v1, View(), Entries(st));
      if Size(View(), Entries(st)) == Size(v0, Entries(st)) {
        ExtendExhaustive(st, v0, v1, s, next);
      }
      if Feasible(st, start) && !found && !Muted(st, v0, s, next) {
        assert v1 == v0;
        ClosedBranches(st, v0, View(), s, next);
      }
    }

    /** The two recursive calls of gen_subset: with the next candidate, then without it. */
    method Branch(s: Subset, next: nat) returns (found: bool)
      requires Valid() && SubsetOk(st, View(), s, next) && next < |candidates|
      modifies this
      ensures Valid() && Steps(old(View()), View(), Entries(st))
      ensures found ==> Size(View(), Entries(st)) < Size(old(View()), Entries(st))
      ensures Size(View(), Entries(st)) == Size(old(View()), Entries(st)) ==>
                BothBranches(st, old(View()), s, next)
      ensures Feasible(st, start) && !found ==> BranchesClosed(st, old(View()), View(), s, next)
      decreases |candidates| - next, 0
    {
      hide Ok, Sound, Steps, Size, SubsetOk, Exhaustive, Take, EntriesFrom, Consistent, Agrees, Naked, Excess, Muted, Feasible;
      ghost var v0 := View();
      ghost var es := Entries(st);
      OkBasics(st, start, v0);

      // Check all remaining subsets that contain the next item
      var taken := TakeNext(s, next);
      var included := GenSubset(taken, next + 1);
      ghost var v1 := View();
      if included {
        return true;
      }

      // Check all remaining subsets that skip the next item
      SkipReady(st, v0, v1, s, next);
      found := GenSubset(s, next + 1);
      Chain(v0, v1, View(), es);
      BranchesJoin(st, v0, v1, View(), s, next);
    }

    method TakeNext(s: Subset, next: nat) returns (taken: Subset)
      requires Valid() && SubsetOk(st, View(), s, next) && next < |candidates|
      ensures taken == Take(View(), s, next) && SubsetOk(st, View(), taken, next + 1)
    {
      ItemFacts(st, start, View(), next);
      SubsetGrows(st, start, View(), s, next);
      var item := candidates[next];
      taken := TakeItem(certain, s, item, thoughts[item.order].possible);
    }

    /** The "sudoku" empathy operation. If it removes nothing, it has tried every naked subset. */
    method CrossElim() returns (found: bool)
      requires Valid()
      modifies this
      ensures Valid() && Steps(old(View()), View(), Entries(st))
      ensures found ==> Size(View(), Entries(st)) < Size(old(View()), Entries(st))
      ensures |old(candidates)| > 1 && Size(View(), Entries(st)) == Size(old(View()), Entries(st)) ==>
                Exhaustive(st, old(View()), Subset([], {}, {}), 0)
      ensures Feasible(st, start) && !found ==> CrossClosed(st, old(View()), View())
    {
      OkBasics(st, start, View());
      if |candidates| <= 1 {
        StepsReflexive(View(), Entries(st));
        return false;
      }
      found := GenSubset(Subset([], {}, {}), 0);
    }

    /** One card of a hand that loses id in the last round; no error is raised here. */
    method EndgameCard(player: nat, o: Order, id: Id) returns (only: Option<Id>)
      requires Valid() && player < |st.hands| && o in st.hands[player] && o in thoughts
      requires id in thoughts[o].possible && HandFree(st, start, player, id)
      modifies this
      ensures Valid() && Steps(old(View()), View(), Entries(st))
      ensures Size(View(), Entries(st)) < Size(old(View()), Entries(st))
      ensures View() == EliminateQuietly(old(View()), o, id) && candidates == old(candidates)
      ensures only.Some? <==> Resolved(old(thoughts)[o], id)
    {
      hide Ok, Sound, Steps, HandFree, Size;
      ghost var v1 := View();
      assert Entry(o, player) in Entries(st);
      QuietlySound(st, start, v1, player, o, id);
      QuietlySteps(v1, o, id, Entries(st));
      var before := thrown;
      only := Eliminate(o, id);
      thrown := before;
      assert View() == EliminateQuietly(v1, o, id);
    }

    /** The candidates that were resolved are dropped. */
    method DropCandidates(removals: set<Order>, ghost v0: Work)
      requires Valid() && Steps(v0, View(), Entries(st))
      requires removals == {} || Size(View(), Entries(st)) < Size(v0, Entries(st))
      modifies this
      ensures Valid() && Steps(v0, View(), Entries(st)) && thoughts == old(thoughts) && candidates == Without(old(candidates), removals)
    {
      ghost var v1 := View();
      hide Ok, Sound, Steps, Size;
      FilterCandidates(st, start, v1, removals);
      StepsFiltered(v0, v1, removals, Entries(st));
      candidates := Without(candidates, removals);
      assert View() == v1.(candidates := Without(v1.candidates, removals));
    }

    /** perform_elim of the last round: one hand loses id, and its cards that this resolves are no candidates any more. */
    method EndgamePerform(player: nat, id: Id)
      requires Valid() && player < |st.hands| && HandFree(st, start, player, id) && KnownInHand(st, thoughts, st.hands[player], id) == {}
      modifies this
      ensures Valid() && Steps(old(View()), View(), Entries(st))
      ensures HandDone(old(View()), View(), st.hands[player], |st.hands[player]|, id)
      ensures candidates == Without(old(candidates), HandResolved(old(View()), st.hands[player], id, |st.hands[player]|))
    {
      hide Ok, Sound, Steps, HandFree, Size, HandDone, EliminateQuietly, KnownAs, KnownInHand, Resolved, HandResolved;
      HandDistinct(st, start, View(), player);
      ghost var v0 := View();
      var hand := st.hands[player];
      HandDoneNone(v0, hand, id);
      HandResolvedFirst(v0, hand, id);
      StepsReflexive(v0, Entries(st));
      var removals: set<Order> := {};
      for k := 0 to |hand|
        invariant Valid() && Steps(v0, View(), Entries(st)) && HandDone(v0, View(), hand, k, id)
        invariant removals == {} || Size(View(), Entries(st)) < Size(v0, Entries(st))
        invariant removals == HandResolved(v0, hand, id, k) && candidates == v0.candidates
      {
        ghost var v1 := View();
        var o := hand[k];
        HandCard(st, start, v0, v1, player, k, id);
        HandResolvedNext(v0, hand, id, k);
        if id in thoughts[o].possible && !KnownAs(st.deck[o], thoughts[o], id) {
          var only := EndgameCard(player, o, id);
          if only.Some? {
            removals := removals + {o};
          }
          Chain(v0, v1, View(), Entries(st));
        }
      }
      ghost var v2 := View();
      DropCandidates(removals, v0);
      HandDoneSame(v0, v2, View(), hand, id);
    }

    /** Which players may hold id, and how many copies are accounted for. */
    method FindHolders(id: Id) returns (total: int, holders: set<nat>)
      requires Valid()
      ensures st.WellFormed()
      ensures total == st.BaseCount(id) + |KnownUpTo(st, thoughts, id, |st.hands|)|
      ensures forall i | 0 <= i < |st.hands| :: i in holders <==> KnownInHand(st, thoughts, st.hands[i], id) != {}
    {
      hide Ok, Sound, KnownInHand;
      OkBasics(st, start, View());
      total := st.BaseCount(id);
      holders := {};
      assert KnownUpTo(st, thoughts, id, 0) == {};
      for i := 0 to |st.hands|
        invariant total == st.BaseCount(id) + |KnownUpTo(st, thoughts, id, i)|
        invariant forall j | 0 <= j < |st.hands| :: j in holders <==> j < i && KnownInHand(st, thoughts, st.hands[j], id) != {}
      {
        KnownUpToStep(st, thoughts, id, i);
        var count := |KnownInHand(st, thoughts, st.hands[i], id)|;
        total := total + count;
        if count != 0 {
          holders := holders + {i as nat};
        }
      }
    }

    /** The players who may hold id: who is known to, and while copies are missing also who has an unknown card. */
    method Holders(id: Id) returns (holders: set<nat>)
      requires Valid() && st.ValidId(id)
      ensures st.WellFormed() && forall i | 0 <= i < |st.hands| :: i in holders <==> MayHold(st, thoughts, i, id)
    {
      hide Ok, Sound, KnownInHand, KnownUpTo, KnownIdentity;
      OkBasics(st, start, View());
      OkCoversHands(st, start, View());
      var total;
      total, holders := FindHolders(id);
      // We don't know where all of these cards are: everyone who could have it is a holder
      if total != st.CardCount(id) {
        holders := holders + set i | 0 <= i < |st.hands| && HasUnknown(st, thoughts, st.hands[i]);
      }
    }

    /** One identity of the last-round rule. */
    method EndgameElimOne(id: Id)
      requires Valid() && st.ValidId(id)
      modifies this
      ensures Valid() && Steps(old(View()), View(), Entries(st)) && st.WellFormed()
      ensures HandsSpared(st, old(View()), View(), [id])
    {
      hide Ok, Sound, Steps, HandFree, MayHold, KnownAs, KnownInHand, HandsDone, HandDone, Apart, HandsSpared;
      ghost var v0 := View();
      var holders := Holders(id);
      HandsApart(st, start, v0);
      HandsDoneNone(st, v0, holders, id);
      StepsReflexive(v0, Entries(st));
      for i := 0 to |st.hands|
        invariant Valid() && Steps(v0, View(), Entries(st)) && HandsDone(st, v0, View(), holders, i, id)
      {
        HandsDoneStill(st, v0, View(), holders, i, id);
        if i !in holders {
          ghost var v1 := View();
          SparedLicence(st, start, v0, i, id);
          EndgamePerform(i, id);
          HandsDoneNext(st, v0, v1, View(), holders, i, id);
          Chain(v0, v1, View(), Entries(st));
        }
      }
      HandsDoneAll(st, v0, View(), holders, id);
    }

    /** When all cards have been drawn, everyone knows what cards everyone has, but not their arrangement. */
    method EndgameElim(identities: seq<Id>)
      requires Valid() && forall i | i in identities :: st.ValidId(i)
      modifies this
      ensures Valid() && Steps(old(View()), View(), Entries(st)) && st.WellFormed()
      ensures Feasible(st, start) && st.cardsLeft <= 0 && common ==> HandsSpared(st, old(View()), View(), identities)
      ensures st.cardsLeft > 0 || !common ==> View() == old(View())
    {
      hide Ok, Sound, Steps, MayHold, GoneFrom, Feasible;
      OkBasics(st, start, View());
      ghost var v0 := View();
      StepsReflexive(v0, Entries(st));
      if st.cardsLeft > 0 || !common {
        return;
      }
      for k := 0 to |identities|
        invariant Valid() && Steps(v0, View(), Entries(st))
        invariant Feasible(st, start) ==> HandsSpared(st, v0, View(), identities[..k])
      {
        ghost var v1 := View();
        EndgameElimOne(identities[k]);
        assert identities[..k + 1] == identities[..k] + [identities[k]];
        StepsUse(v0, v1, Entries(st));
        StepsUse(v1, View(), Entries(st));
        if Feasible(st, start) { SparedMore(st, start, v0, v1, View(), identities[..k], identities[k]); }
        Chain(v0, v1, View(), Entries(st));
      }
      assert identities[..|identities|] == identities;
    }

    /** The union of the possibilities of all held cards, stopping early once it is everything. */
    method AllIdentities() returns (all: set<Id>)
      requires Valid()
      ensures forall i | i in all :: st.ValidId(i)
      ensures forall o, i | o in HandOrders(st) && i in start[o].possible :: i in all
    {
      OkBasics(st, start, View());
      var es := Entries(st);
      all := {};
      for k := 0 to |es|
        invariant forall i | i in all :: st.ValidId(i)
        invariant forall j, i | 0 <= j < k && i in start[es[j].order].possible :: i in all
      {
        assert es[k] in es && es[k].order in HandOrders(st);
        all := all + start[es[k].order].possible;
        if |all| == st.NumSuits() * MAX_RANK {
          forall i | i in all
            ensures IsId(i, st.NumSuits())
          {
            assert st.ValidId(i);
          }
          FullSet(all, st.NumSuits());
          forall o, i | o in HandOrders(st) && i in start[o].possible
            ensures i in all
          {
            assert st.ValidId(i);
          }
          return;
        }
      }
      forall o, i | o in HandOrders(st) && i in start[o].possible
        ensures i in all
      {
        EntryOfOrder(st, o);
      }
    }

    /** What the opening loop of card_elim does with one card: it becomes a candidate exactly if it is worth trying. */
    method PrepareCard(e: Entry, ghost k: nat)
      requires Valid() && st.WellFormed() && ThoughtsCover(st, start) && k < |Entries(st)| && e == Entries(st)[k]
      requires candidates == CandidatesUpTo(st, start, k) && View() == InitialWork(st, start, common, k, candidates)
      modifies this
      ensures Valid() && View() == InitialWork(st, start, common, k + 1, candidates)
      ensures candidates == CandidatesUpTo(st, start, k + 1)
    {
      hide Ok, Sound, StartThoughts, EntriesFrom, Consistent, Agrees;
      OkBasics(st, start, View());
      CandidatesFirst(st, start, k);
      InitialWorkStep(st, start, common, k, candidates);
      assert e in Entries(st) && e.order in HandOrders(st);
      CoversEntries(st, start);
      InitialCertainStep(start, common, Entries(st), k);
      hide InitialCertain, HandOrders;
      var card := start[e.order];
      var id := card.Identity(common);
      var unknownTo := if card.Identity(true).None? then {e.player} else {};
      if id.Some? {
        certain := InsertCertain(certain, id.value, e.order, unknownTo);
      }
      if IsCandidate(st, card) {
        candidates := candidates + [e];
      }
    }

    /** The opening loop of card_elim: certainties and candidates. */
    method Prepare()
      requires Valid() && st.WellFormed() && ThoughtsCover(st, start)
      requires candidates == [] && View() == InitialWork(st, start, common, 0, candidates)
      modifies this
      ensures Valid() && View() == CandidateWork(st, start, common)
    {
      hide Ok, Sound, InitialWork, EntriesFrom, View;
      var es := Entries(st);
      for k := 0 to |es|
        invariant Valid() && candidates == CandidatesUpTo(st, start, k) && View() == InitialWork(st, start, common, k, candidates)
      {
        PrepareCard(es[k], k);
      }
    }

    /** The loop of cross_elim: it goes on as long as something is reported. */
    method CrossLoop() returns (ghost last: Work)
      requires Valid()
      modifies this
      ensures Valid() && st.WellFormed()
      ensures Steps(old(View()), View(), Entries(st)) && Steps(old(View()), last, Entries(st)) && Steps(last, View(), Entries(st))
      ensures Feasible(st, start) ==> CrossClosed(st, last, View())
      ensures |old(candidates)| > 1 && Size(View(), Entries(st)) == Size(old(View()), Entries(st)) ==>
                Exhaustive(st, old(View()), Subset([], {}, {}), 0)
    {
      hide Ok, Sound, Steps, Size, Exhaustive, EntriesFrom, CrossClosed, Feasible;
      OkBasics(st, start, View());
      ghost var v2 := View();
      last := v2;
      StepsReflexive(v2, Entries(st));
      var found := CrossElim();
      ghost var first := View();
      StepsReflexive(first, Entries(st));
      while found
        invariant Valid() && Steps(v2, View(), Entries(st)) && Steps(v2, last, Entries(st)) && Steps(last, View(), Entries(st))
        invariant Steps(first, View(), Entries(st))
        invariant Feasible(st, start) && !found ==> CrossClosed(st, last, View())
        decreases Size(View(), Entries(st)), if found then 1 else 0
      {
        last := View();
        found := CrossElim();
        Chain(v2, last, View(), Entries(st));
        Chain(first, last, View(), Entries(st));
      }
      StepsUse(v2, first, Entries(st));
      StepsUse(first, View(), Entries(st));
    }

    /** The whole of card_elim, up to writing the thoughts back. It clears what is fully accounted for at the start;
        if no possibility is lost, no naked subset is left to act on; and in any case the last round of cross_elim had
        nothing to report. */
    method Run() returns (ghost last: Work)
      requires Valid() && st.WellFormed() && ThoughtsCover(st, start)
      requires candidates == [] && View() == InitialWork(st, start, common, 0, candidates)
      modifies this
      ensures Valid()
      ensures Feasible(st, start) ==>
                forall o, i | o in HandOrders(st) && i in start[o].possible && AllKnown(st, StartWork(st, start, common), i)
                  :: Cleared(st, StartWork(st, start, common), View(), i)
      ensures Size(View(), Entries(st)) == Size(CandidateWork(st, start, common), Entries(st)) ==> NoNakedGroup(st, start, common)
      ensures Feasible(st, start) ==> CrossEnded(st, CandidateWork(st, start, common), last, View(), common)
      ensures Feasible(st, start) && common && st.cardsLeft <= 0 ==> HandsCleared(st, StartThoughts(st, start), View().thoughts)
    {
      OkBasics(st, start, View());
      var all := AllIdentities();
      var ids := ArrayOf(all, st.NumSuits());
      ArrayOfIsExact(all, st.NumSuits());
      Prepare();
      ghost var v0 := View();
      ghost var es := Entries(st);
      assert v0 == InitialWork(st, start, common, |es|, v0.candidates);
      hide Ok, Sound, Steps, Size, InitialWork, Exhaustive, EntriesFrom, Cleared, AllKnown, CandidateWork, NoNakedGroup, CrossClosed,
        AllCleared, Feasible, HandsSpared, HandsCleared, StartThoughts;
      EndgameElim(ids);
      ghost var v1 := View();
      StepsUse(v0, v1, es);
      var unused := BasicElim(ids);
      ghost var v2 := View();
      StepsUse(v1, v2, es);
      last := CrossLoop();
      ghost var v4 := View();
      EndgameElim(ids);
      RunEnds(st, start, common, v0, v1, v2, last, v4, View());
      Chain(v2, v4, View(), es);
      RunClears(st, start, common, v0, v1, v2, View(), ids);
      if Feasible(st, start) && common && st.cardsLeft <= 0 {
        RunSpares(st, start, common, v0, v1, v2, v4, View(), ids);
      }
    }
  }

  /** The last round of cross_elim went from last to some state on the way to the end, and left nothing that it would
      report. Only the last-round rule comes after it. */
  ghost predicate CrossEnded(st: State, first: Work, last: Work, end: Work, common: bool)
    requires st.WellFormed()
  {
    Steps(first, last, Entries(st))
    && exists after :: Steps(last, after, Entries(st)) && Steps(after, end, Entries(st)) && CrossClosed(st, last, after)
                       && (st.cardsLeft > 0 || !common ==> end == after)
  }

  /** What the last-round rule has cleared at first stays cleared to the end. */
  lemma RunSpares(st: State, start: seq<Card>, common: bool, v0: Work, v1: Work, v2: Work, v4: Work, end: Work, ids: seq<Id>)
    requires st.WellFormed() && ThoughtsCover(st, start) && v0 == CandidateWork(st, start, common)
    requires Steps(v0, v1, Entries(st)) && Steps(v1, v2, Entries(st)) && Steps(v2, v4, Entries(st)) && Steps(v4, end, Entries(st))
    requires HandsSpared(st, v0, v1, ids)
    requires forall o, i | o in HandOrders(st) && i in start[o].possible :: i in ids
    ensures HandsCleared(st, StartThoughts(st, start), end.thoughts)
  {
    var es := Entries(st);
    hide Steps, Size, HandsSpared, HandsCleared, Entries, HandOrders;
    Chain(v1, v2, v4, es);
    Chain(v1, v4, end, es);
    StepsUse(v0, v1, es);
    StepsUse(v1, end, es);
    TriedAreAll(st, v0, v1, end, ids);
  }

  lemma RunEnds(st: State, start: seq<Card>, common: bool, v0: Work, v1: Work, v2: Work, last: Work, v4: Work, end: Work)
    requires st.WellFormed() && ThoughtsCover(st, start) && DistinctOrders(st) && v0 == CandidateWork(st, start, common)
    requires Steps(v0, v1, Entries(st)) && Steps(v1, v2, Entries(st)) && Steps(v2, v4, Entries(st)) && Steps(v4, end, Entries(st))
    requires Steps(v2, last, Entries(st)) && Steps(last, v4, Entries(st)) && (Feasible(st, start) ==> CrossClosed(st, last, v4))
    requires |v2.candidates| > 1 && Size(v4, Entries(st)) == Size(v2, Entries(st)) ==> Exhaustive(st, v2, Subset([], {}, {}), 0)
    requires st.cardsLeft > 0 || !common ==> end == v4
    ensures Size(end, Entries(st)) == Size(v0, Entries(st)) ==> NoNakedGroup(st, start, common)
    ensures Feasible(st, start) ==> CrossEnded(st, v0, last, end, common)
  {
    var es := Entries(st);
    hide Steps, Size, Exhaustive, NoNakedGroup, CrossClosed, CandidateWork, Feasible, Entries, DistinctOrders;
    Chain(v0, v1, v2, es);
    Chain(v0, v2, last, es);
    StepsUse(v0, v2, es);
    StepsUse(v2, v4, es);
    StepsUse(v4, end, es);
    if Size(end, es) == Size(v0, es) {
      if |v2.candidates| > 1 { ExhaustiveSame(st, v0, v2, Subset([], {}, {}), 0); }
      ExhaustedGroups(st, start, common);
    }
  }

  /** What the three parts of perform_elim clear together, said of the state before the first. */
  lemma PerformDone(st: State, start: seq<Card>, v0: Work, v1: Work, v2: Work, v3: Work, s: Subset, next: nat)
    requires Ok(st, start, v0) && Sound(st, start, v0) && Sound(st, start, v1) && SubsetOk(st, v0, s, next) && Excess(st, s) == |s.contained|
    requires Steps(v0, v1, Entries(st)) && Steps(v1, v2, Entries(st)) && Steps(v2, v3, Entries(st)) && st.WellFormed() && Feasible(st, start)
    requires GroupsDone(st, v0, v1, s.contained) && SubsetDone(st, v1, v2, s)
    ensures GroupsDone(st, v0, v3, s.contained) && SubsetDone(st, v0, v3, s)
  {
    hide Ok, Sound, Steps, Refines, GroupsDone, SubsetOk, Feasible, NoneElsewhere, Targeted;
    StepsUse(v0, v1, Entries(st));
    StepsUse(v1, v2, Entries(st));
    StepsUse(v2, v3, Entries(st));
    DoneStays(st, start, v0, v1, v2, v3, s, s.contained);
    forall i, e | i in s.ids && e in Entries(st) && e.order in v0.thoughts && e.order in v3.thoughts && Targeted(v0, i, PlayersOf(s.contained), e)
      ensures i !in v3.thoughts[e.order].possible
    {
      RefinedPossible(v2, v3, e.order);
      RefinedPossible(v1, v2, e.order);
      if i in v1.thoughts[e.order].possible {
        NakedSubsetLicence(st, start, v0, s, next, i);
        StillTargeted(st, start, v0, v1, i, PlayersOf(s.contained), e);
      }
    }
  }

  lemma EliminatedAside(st: State, v: Work, id: Id, after: Work, found: seq<Id>)
    requires InThoughts(v, Entries(st)) && after.thoughts.Keys == v.thoughts.Keys
    ensures var r := v.(eliminated := v.eliminated + {id});
            && (PassLeft(r, after, id, {}, Entries(st), found) ==> PassLeft(v, after, id, {}, Entries(st), found))
            && ((exists e :: e in Entries(st) && Targeted(r, id, {}, e)) <==> AnyTargeted(st, v, id, {}))
            && forall e | e in Entries(st) && Removed(r, after, id, {}, e) :: Removed(v, after, id, {}, e)
  {
    var r := v.(eliminated := v.eliminated + {id});
    assert forall e | e in Entries(st) :: Targeted(r, id, {}, e) == Targeted(v, id, {}, e);
    assert forall e: Entry | e.order in v.thoughts :: Targeted(r, id, {}, e) == Targeted(v, id, {}, e);
    assert ResolvedUpTo(r, id, {}, Entries(st), |Entries(st)|) == ResolvedUpTo(v, id, {}, Entries(st), |Entries(st)|);
    assert forall e: Entry, i | TurnsInto(r, id, {}, e, i) :: TurnsInto(v, id, {}, e, i);
    assert forall e: Entry, i | TurnsInto(v, id, {}, e, i) :: TurnsInto(r, id, {}, e, i);
  }

  lemma PassKeepsCandidates(v0: Work, v1: Work, id: Id, exclude: set<nat>, es: seq<Entry>)
    requires Progress(v0, v1, id, exclude, es, |es|)
    ensures v1.candidates == v0.candidates && v1.eliminated == v0.eliminated
  {
  }

  lemma KeysHaveGroups(st: State, v: Work, es: seq<Entry>, ident: map<Order, Option<Id>>)
    requires GroupedBy(st, v, es, ident)
    ensures forall id | id in GroupKeys(es, ident, {}) :: Group(es, ident, id) != []
    ensures NoneKnown(st, v.thoughts, es) ==> GroupKeys(es, ident, {}) == []
  {
    var keys := GroupKeys(es, ident, {});
    forall id | id in keys
      ensures Group(es, ident, id) != []
    {
      var e :| e in es && e.order in ident && ident[e.order] == Some(id);
      assert e in Group(es, ident, id);
    }
    assert keys != [] ==> keys[0] in keys;
  }

  ghost predicate KeysDone(st: State, v0: Work, v1: Work, es: seq<Entry>, keys: seq<Id>, k: nat)
    requires st.WellFormed()
  {
    forall j | 0 <= j < k && j < |keys| :: GroupDone(st, v0, v1, es, keys[j])
  }

  lemma KeysDoneNext(st: State, v0: Work, v1: Work, v2: Work, es: seq<Entry>, keys: seq<Id>, k: nat)
    requires st.WellFormed() && k < |keys| && Refines(v1, v2) && KeysDone(st, v0, v1, es, keys, k) && GroupDone(st, v0, v2, es, keys[k])
    ensures KeysDone(st, v0, v2, es, keys, k + 1)
  {
    hide GroupDone, Refines;
    forall j | 0 <= j < k
      ensures GroupDone(st, v0, v2, es, keys[j])
    {
      GroupDoneStays(st, v0, v1, v2, es, keys[j]);
    }
  }

  lemma NoKeysDone(st: State, v0: Work, es: seq<Entry>, keys: seq<Id>)
    requires st.WellFormed()
    ensures KeysDone(st, v0, v0, es, keys, 0)
  {
  }

  lemma AllKeysDone(st: State, v0: Work, v1: Work, es: seq<Entry>, ident: map<Order, Option<Id>>)
    requires st.WellFormed() && OrdersDistinct(es) && GroupedBy(st, v0, es, ident)
    requires KeysDone(st, v0, v1, es, GroupKeys(es, ident, {}), |GroupKeys(es, ident, {})|)
    ensures GroupsDone(st, v0, v1, es)
  {
    hide GroupDone, GroupedBy, GroupsDone, OrdersDistinct;
    AllGroupsDone(st, v0, v1, es, ident);
  }

  lemma FirstUnhit(st: State, v: Work, s: Subset, ids: seq<Id>)
    ensures Unhit(st, v, s, ids, 0) && DoneUpTo(st, v, v, s, ids, 0) && InsideKept(st, v, v, s)
    ensures InThoughts(v, Entries(st)) ==> Untried(st, v, v, ids, 0)
  {
  }

  lemma LastNeedsIds(st: State, v: Work, s: Subset)
    ensures LastTargeted(st, v, s) ==> ArrayOf(s.ids, st.NumSuits()) != []
  {
  }

  lemma LastStillTargeted(st: State, start: seq<Card>, v0: Work, v1: Work, s: Subset, ids: seq<Id>)
    requires st.WellFormed() && ids == ArrayOf(s.ids, st.NumSuits()) && ids != [] && Sound(st, start, v1) && Refines(v0, v1)
    requires Feasible(st, start) && NoneElsewhere(st, start, v0, ids[|ids| - 1], PlayersOf(s.contained))
    requires Untried(st, v0, v1, ids, |ids| - 1) && LastTargeted(st, v0, s)
    ensures exists e :: e in Entries(st) && e.order in v1.thoughts && Targeted(v1, ids[|ids| - 1], PlayersOf(s.contained), e)
  {
    var last := ids[|ids| - 1];
    var e :| e in Entries(st) && e.order in v0.thoughts && Targeted(v0, last, PlayersOf(s.contained), e);
    StillTargeted(st, start, v0, v1, last, PlayersOf(s.contained), e);
  }

  /** What it means that perform_elim would report whatever it removes. */
  lemma QuietSubset(st: State, start: seq<Card>, v: Work, s: Subset, next: nat)
    requires Ok(st, start, v) && SubsetOk(st, v, s, next)
    ensures st.WellFormed()
    ensures !Unreported(st, v, s) ==> NoneKnown(st, v.thoughts, s.contained) && (forall i | i in s.ids :: !AllKnown(st, v, i))
    ensures !Unreported(st, v, s) ==> Settled(st, v, s) || LastTargeted(st, v, s)
    ensures LastTargeted(st, v, s) ==> s.ids != {}
  {
    ArrayOfIsExact(s.ids, st.NumSuits());
    hide Settled, AllKnown, Targeted;
    if !Unreported(st, v, s) {
      assert !KnownMember(st, v, s) && !SomeAllKnown(st, v, s);
    }
    if LastTargeted(st, v, s) {
      var ids := ArrayOf(s.ids, st.NumSuits());
      assert ids[|ids| - 1] in ids;
    }
  }

  /** A search that reports nothing has missed no naked subset and changed nothing, unless some subset goes unreported. */
  ghost predicate Closed(st: State, v: Work, after: Work, s: Subset, next: nat)
    requires st.WellFormed()
  {
    Muted(st, v, s, next) || (after == v && Exhaustive(st, v, s, next))
  }

  ghost predicate BranchesClosed(st: State, v: Work, after: Work, s: Subset, next: nat)
    requires st.WellFormed()
  {
    next < |v.candidates|
    && (Muted(st, v, Take(v, s, next), next + 1) || Muted(st, v, s, next + 1) || (after == v && BothBranches(st, v, s, next)))
  }

  lemma ClosedBranches(st: State, v: Work, after: Work, s: Subset, next: nat)
    requires st.WellFormed() && BranchesClosed(st, v, after, s, next) && (Naked(st, s) ==> Settled(st, v, s))
    ensures Closed(st, v, after, s, next)
  {
    hide Muted, Exhaustive, BothBranches;
    if Muted(st, v, Take(v, s, next), next + 1) {
      MutedLater(st, v, s, next, true);
    } else if Muted(st, v, s, next + 1) {
      MutedLater(st, v, s, next, false);
    } else {
      BothExhaustive(st, v, s, next);
    }
  }

  /** `cross_elim` had nothing left to do, unless some subset goes unreported. */
  ghost predicate CrossClosed(st: State, v: Work, after: Work)
    requires st.WellFormed()
  {
    (|v.candidates| <= 1 && after == v) || Closed(st, v, after, Subset([], {}, {}), 0)
  }

  /** None of these cards is identified. */
  ghost predicate NoneKnown(st: State, thoughts: map<Order, Card>, es: seq<Entry>) {
    forall e | e in es && e.order in thoughts && e.order < |st.deck| :: KnownIdentity(st.deck[e.order], thoughts[e.order]).None?
  }

  /** Only the beliefs about held cards may differ, and they only become finer. */
  ghost predicate Finer(st: State, p: Player, q: Player) {
    && q.playerIndex == p.playerIndex
    && |q.thoughts| == |p.thoughts|
    && q.allPossible <= p.allPossible && q.allInferred <= p.allInferred
    && forall o | 0 <= o < |p.thoughts| ::
         if o in HandOrders(st) then
           && q.thoughts[o].possible <= p.thoughts[o].possible
           && q.thoughts[o].seen == p.thoughts[o].seen
           && q.thoughts[o].rewindIds == p.thoughts[o].rewindIds
           && q.thoughts[o].clued == p.thoughts[o].clued
         else q.thoughts[o] == p.thoughts[o]
  }

  /** Every copy of i is on a stack or in a hand. */
  ghost predicate OutOfDeck(w: Deal, st: State, i: Id)
    requires st.WellFormed()
  {
    |Held(w, st, i)| + st.BaseCount(i) == st.CardCount(i)
  }

  /** A viewer's beliefs cover the held cards with identities of the variant. */
  ghost predicate Viewable(st: State, p: Player) {
    && st.WellFormed() && DistinctOrders(st) && ThoughtsCover(st, p.thoughts)
    && forall o, i | o in HandOrders(st) && i in p.thoughts[o].possible :: st.ValidId(i)
  }

  /** Identities all of whose copies this viewer can already account for are gone from every other held card. */
  ghost predicate VisibleCleared(st: State, p: Player, q: Player)
    requires Viewable(st, p)
  {
    var v0 := StartWork(st, p.thoughts, p.playerIndex == -1);
    forall e, i | e in Entries(st) && e.order < |q.thoughts| && AllKnown(st, v0, i) && e.order in v0.thoughts && Targeted(v0, i, {}, e)
      :: i !in q.thoughts[e.order].possible && i !in q.allPossible
  }

  /** No possibility of a held card has been lost. */
  ghost predicate SamePossible(st: State, p: Player, q: Player)
    requires Viewable(st, p) && Viewable(st, q)
  {
    forall o | o in HandOrders(st) :: q.thoughts[o].possible == p.thoughts[o].possible
  }

  /** The search for naked subsets stopped because it had nothing more to report. */
  ghost predicate SearchedOut(st: State, p: Player, q: Player)
    requires Viewable(st, p) && Viewable(st, q)
  {
    var common := p.playerIndex == -1;
    exists last, end :: CrossEnded(st, CandidateWork(st, p.thoughts, common), last, end, common)
                        && end.thoughts == StartThoughts(st, q.thoughts)
  }

  /** What card_elim makes of a player. Identities that are visibly all accounted for are cleared; if no possibility was
      lost, no naked subset was left to act on, and otherwise the search for them ran out; and in the last round hands have
      lost what they cannot hold. */
  ghost predicate Eliminated(st: State, p: Player, q: Player)
    requires Viewable(st, p) && Viewable(st, q)
  {
    && Finer(st, p, q)
    && (SamePossible(st, p, q) ==> NoNakedGroup(st, p.thoughts, p.playerIndex == -1))
    && (Feasible(st, p.thoughts) ==>
          && VisibleCleared(st, p, q) && SearchedOut(st, p, q)
          && (p.playerIndex == -1 && st.cardsLeft <= 0 ==> HandsCleared(st, StartThoughts(st, p.thoughts), StartThoughts(st, q.thoughts))))
  }

  /** `player.card_elim(state)`: the refined player, or None where the source throws. */
  method CardElimFor(p: Player, st: State) returns (r: Option<Player>)
    requires Viewable(st, p)
    ensures r.None? ==> !Feasible(st, p.thoughts)
    ensures r.Some? ==> Viewable(st, r.value) && Eliminated(st, p, r.value)
    ensures r.Some? ==> forall w | Consistent(w, st, p.thoughts) :: Consistent(w, st, r.value.thoughts)
    ensures r.Some? ==> forall w, i | Consistent(w, st, p.thoughts) && i in p.allPossible - r.value.allPossible :: OutOfDeck(w, st, i)
  {
    var e := new CardElim(st, p.playerIndex == -1, p.thoughts);
    ghost var last := e.Run();
    ghost var v := e.View();
    ThrownMeansInfeasible(st, p.thoughts, v);
    if e.thrown {
      return None;
    }
    hide Ok, Sound, Viewable, Feasible, Cleared, AllKnown, Targeted, Consistent, StartWork, EntriesFrom, CandidateWork, CrossEnded,
      NoNakedGroup, HandsCleared, StartThoughts, SamePossible, SearchedOut;
    var newThoughts := e.thoughts;
    var thoughts := seq(|p.thoughts|, o requires 0 <= o < |p.thoughts| =>
      if o in newThoughts then newThoughts[o] else p.thoughts[o]);
    var q := p.(thoughts := thoughts, allPossible := p.allPossible - e.eliminated, allInferred := p.allInferred - e.eliminated);
    WrittenBack(st, p, q, v);
    EndThoughts(st, p, q, v, last);
    if Feasible(st, p.thoughts) {
      ClearedBack(st, p, q, v);
    }
    r := Some(q);
  }

  lemma ThrownMeansInfeasible(st: State, start: seq<Card>, v: Work)
    requires st.WellFormed() && Sound(st, start, v)
    ensures v.thrown ==> !Feasible(st, start)
  {
    if v.thrown {
      forall w: Deal
        ensures !Consistent(w, st, start)
      {
        assert Consistent(w, st, start) ==> Agrees(w, st, v);
      }
    }
  }

  /** What is known of the last working state, said of the player. */
  lemma EndThoughts(st: State, p: Player, q: Player, v: Work, last: Work)
    requires Viewable(st, p) && Viewable(st, q) && Ok(st, p.thoughts, v) && |q.thoughts| == |p.thoughts|
    requires forall o | 0 <= o < |p.thoughts| :: q.thoughts[o] == if o in v.thoughts then v.thoughts[o] else p.thoughts[o]
    ensures v.thoughts == StartThoughts(st, q.thoughts)
    ensures SamePossible(st, p, q) ==> Size(v, Entries(st)) == Size(CandidateWork(st, p.thoughts, p.playerIndex == -1), Entries(st))
    ensures CrossEnded(st, CandidateWork(st, p.thoughts, p.playerIndex == -1), last, v, p.playerIndex == -1) ==> SearchedOut(st, p, q)
  {
    hide Ok, CrossEnded, CandidateWork;
    EndThoughtsAre(st, p, q, v);
    if SamePossible(st, p, q) {
      SameSizes(st, p.thoughts, p.playerIndex == -1, v);
    }
  }

  lemma EndThoughtsAre(st: State, p: Player, q: Player, v: Work)
    requires Viewable(st, p) && Viewable(st, q) && Ok(st, p.thoughts, v) && |q.thoughts| == |p.thoughts|
    requires forall o | 0 <= o < |p.thoughts| :: q.thoughts[o] == if o in v.thoughts then v.thoughts[o] else p.thoughts[o]
    ensures v.thoughts == StartThoughts(st, q.thoughts)
  {
  }

  lemma SameSizes(st: State, start: seq<Card>, common: bool, v: Work)
    requires st.WellFormed() && ThoughtsCover(st, start) && v.thoughts.Keys == HandOrders(st)
    requires forall o | o in HandOrders(st) :: v.thoughts[o].possible == start[o].possible
    ensures Size(v, Entries(st)) == Size(CandidateWork(st, start, common), Entries(st))
  {
    hide Entries, InitialCertain;
    var v0 := CandidateWork(st, start, common);
    SizeShrinks(v, v0, Entries(st));
    SizeShrinks(v0, v, Entries(st));
  }

  lemma ClearedBack(st: State, p: Player, q: Player, v: Work)
    requires Viewable(st, p) && Ok(st, p.thoughts, v)
    requires |q.thoughts| == |p.thoughts|
    requires forall o | 0 <= o < |p.thoughts| :: q.thoughts[o] == if o in v.thoughts then v.thoughts[o] else p.thoughts[o]
    requires q.allPossible == p.allPossible - v.eliminated
    requires forall o, i | o in HandOrders(st) && i in p.thoughts[o].possible && AllKnown(st, StartWork(st, p.thoughts, p.playerIndex == -1), i)
               :: Cleared(st, StartWork(st, p.thoughts, p.playerIndex == -1), v, i)
    ensures VisibleCleared(st, p, q)
  {
    var v0 := StartWork(st, p.thoughts, p.playerIndex == -1);
    forall e, i | e in Entries(st) && e.order < |q.thoughts| && AllKnown(st, v0, i) && e.order in v0.thoughts && Targeted(v0, i, {}, e)
      ensures i !in q.thoughts[e.order].possible && i !in q.allPossible
    {
      assert e.order in HandOrders(st) && i in p.thoughts[e.order].possible;
      assert Cleared(st, v0, v, i);
    }
  }

  /** Writing the working thoughts back loses nothing that was proved about them. */
  lemma WrittenBack(st: State, p: Player, q: Player, v: Work)
    requires Viewable(st, p) && Ok(st, p.thoughts, v) && Sound(st, p.thoughts, v) && !v.thrown
    requires |q.thoughts| == |p.thoughts| && q.playerIndex == p.playerIndex
    requires forall o | 0 <= o < |p.thoughts| :: q.thoughts[o] == if o in v.thoughts then v.thoughts[o] else p.thoughts[o]
    requires q.allPossible == p.allPossible - v.eliminated && q.allInferred == p.allInferred - v.eliminated
    ensures Finer(st, p, q) && Viewable(st, q)
    ensures forall w | Consistent(w, st, p.thoughts) :: Consistent(w, st, q.thoughts)
    ensures forall w, i | Consistent(w, st, p.thoughts) && i in p.allPossible - q.allPossible :: OutOfDeck(w, st, i)
  {
    forall w | Consistent(w, st, p.thoughts)
      ensures Consistent(w, st, q.thoughts) && Agrees(w, st, v)
    {
      assert Agrees(w, st, v);
      forall o | o in HandOrders(st)
        ensures o < |w| && o < |q.thoughts| && AgreesWithCard(w[o], st.deck[o], q.thoughts[o])
      {
        assert AgreesWithCard(w[o], st.deck[o], p.thoughts[o]);
      }
    }
  }
}
