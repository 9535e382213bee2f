// src/basics.js and `team_elimP` of src/basics/helper.js: how each action changes what everyone believes,
// and the proof that no true identity is ever ruled out in any run.
module Empathy {
  import opened Cards
  import opened GameState
  import opened Beliefs
  import opened Variants
  import opened Table
  import opened TableLaws
  import opened Elimination
  import opened CardElimination

  datatype Game = Game(
    state: State,
    common: Player,
    players: seq<Player>,
    ourPlayer: nat)

  // ----- Conventions -----

  /** What convention code may rewrite on a card; never its possibilities. */
  datatype Inference = Inference(
    inferred: set<Id>,
    infoLock: Option<set<Id>>,
    status: Status,
    lastStatus: Status,
    reset: bool,
    known: bool,
    hidden: bool)

  /** Good touch elimination, links and hypo stacks, as an arbitrary rewriting of inferences. */
  type Convention = (Player, State) -> seq<Inference>

  function Reinfer(c: Card, i: Inference): Card {
    c.(inferred := i.inferred, infoLock := i.infoLock, status := i.status, lastStatus := i.lastStatus,
       reset := i.reset, known := i.known, hidden := i.hidden)
  }

  function Infer(p: Player, st: State, conv: Convention): Player {
    var inf := conv(p, st);
    p.(thoughts := seq(|p.thoughts|, o requires 0 <= o < |p.thoughts| =>
      if o < |inf| then Reinfer(p.thoughts[o], inf[o]) else p.thoughts[o]))
  }

  // ----- Patches -----

  /** A change recorded on common knowledge, to be replayed on every player. */
  datatype Patch = SetSeen(id: Option<Id>) | SetClued | SetStatus(status: Status, lastStatus: Status)
                 | SetOld(possible: set<Id>, inferred: set<Id>)

  function ApplyPatch(c: Card, p: Patch): Card {
    match p
    case SetSeen(id) => c.(seen := id)
    case SetClued => c.(clued := true)
    case SetStatus(s, l) => c.(status := s, lastStatus := l)
    case SetOld(possible, inferred) => c.(oldPossible := Some(possible), oldInferred := Some(inferred))
  }

  function ApplyPatches(c: Card, ps: seq<Patch>): (r: Card)
    ensures r.possible == c.possible && r.rewindIds == c.rewindIds
    ensures (forall p | p in ps :: !p.SetSeen?) ==> r.seen == c.seen
    ensures (forall p | p in ps :: !p.SetClued?) ==> r.clued == c.clued
    decreases |ps|
  {
    if ps == [] then c else ApplyPatches(ApplyPatch(c, ps[0]), ps[1..])
  }

  // ----- Well-formed games and true beliefs -----

  ghost predicate PlayerOk(st: State, p: Player) {
    && |p.thoughts| == |st.deck|
    && (forall o, i | 0 <= o < |p.thoughts| && i in p.thoughts[o].possible :: st.ValidId(i))
    && (forall i | i in p.allPossible :: st.ValidId(i))
  }

  ghost predicate TableShape(st: State) {
    && st.WellFormed() && DistinctHands(st.hands)
    && forall o | o in HandOrders(st) :: o < |st.deck|
  }

  ghost predicate GameOk(g: Game) {
    && TableShape(g.state)
    && PlayerOk(g.state, g.common) && g.common.playerIndex == -1
    && |g.players| == g.state.NumPlayers()
    && forall i | 0 <= i < |g.players| :: PlayerOk(g.state, g.players[i]) && g.players[i].playerIndex == i
  }

  /** Nothing this viewer believes is false of the deal. */
  ghost predicate ViewTrue(w: Deal, st: State, p: Player) {
    && (forall o | o in HandOrders(st) :: o < |w| && o < |st.deck| && o < |p.thoughts|
          && AgreesWithCard(w[o], st.deck[o], p.thoughts[o]))
    && (forall o | |st.deck| <= o < |w| :: w[o] in p.allPossible)
  }

  /** Nothing anybody believes is false of the deal. */
  ghost predicate AllTrue(w: Deal, g: Game) {
    && ViewTrue(w, g.state, g.common)
    && forall i | 0 <= i < |g.players| :: ViewTrue(w, g.state, g.players[i])
  }

  /** The deal fits the table. */
  ghost predicate Fits(w: Deal, st: State) {
    st.WellFormed() && Placed(w, st) && Conserved(w, st)
  }

  lemma ViewConsistent(w: Deal, st: State, p: Player)
    requires Fits(w, st) && ViewTrue(w, st, p)
    ensures Consistent(w, st, p.thoughts)
  {
    assert RespectsCounts(w, st);
  }

  lemma ShapeViewable(st: State, p: Player)
    requires TableShape(st) && PlayerOk(st, p)
    ensures Viewable(st, p)
  {
    DistinctEntries(st.hands, 0);
  }

  /** card_elim keeps a true view true. */
  lemma ElimKeepsTrue(w: Deal, st: State, p: Player, q: Player)
    requires Fits(w, st) && ViewTrue(w, st, p) && Finer(st, p, q)
    requires Consistent(w, st, q.thoughts)
    requires forall i | i in p.allPossible - q.allPossible :: OutOfDeck(w, st, i)
    ensures ViewTrue(w, st, q)
  {
    forall o | |st.deck| <= o < |w|
      ensures w[o] in q.allPossible
    {
      assert o in Undrawn(w, st, w[o]);
      assert !OutOfDeck(w, st, w[o]);
    }
  }

  lemma FinerOk(st: State, p: Player, q: Player)
    requires PlayerOk(st, p) && Finer(st, p, q)
    ensures PlayerOk(st, q)
  {
    forall o, i | 0 <= o < |q.thoughts| && i in q.thoughts[o].possible
      ensures st.ValidId(i)
    {
      assert i in p.thoughts[o].possible;
    }
  }

  /** The viewer sees the first n cards as before. */
  predicate SameSeen(p: Player, q: Player, n: nat) {
    |p.thoughts| >= n && |q.thoughts| >= n && forall o | 0 <= o < n :: q.thoughts[o].seen == p.thoughts[o].seen
  }

  /** The viewer sees the cards in hands as before. */
  ghost predicate HandsSeen(st: State, p: Player, q: Player) {
    forall o | o in HandOrders(st) && o < |p.thoughts| :: o < |q.thoughts| && q.thoughts[o].seen == p.thoughts[o].seen
  }

  /** Conventions may have changed what is inferred, and nothing else. */
  ghost predicate SameBeliefs(p: Player, q: Player) {
    && |q.thoughts| == |p.thoughts| && q.allPossible == p.allPossible
    && forall o | 0 <= o < |p.thoughts| ::
         && q.thoughts[o].possible == p.thoughts[o].possible && q.thoughts[o].seen == p.thoughts[o].seen
         && q.thoughts[o].clued == p.thoughts[o].clued
  }

  /** The player has gone through card_elim at this table, and then perhaps through conventions. */
  ghost predicate Refined(st: State, p: Player, r: Player) {
    && TableShape(st) && PlayerOk(st, p)
    && (ShapeViewable(st, p); exists q :: Viewable(st, q) && Eliminated(st, p, q) && SameBeliefs(q, r))
  }

  lemma RefinedFiner(st: State, p: Player, r: Player)
    requires Refined(st, p, r)
    ensures |r.thoughts| == |p.thoughts| && r.allPossible <= p.allPossible && SameSeen(p, r, |st.deck|)
    ensures forall o | 0 <= o < |p.thoughts| :: r.thoughts[o].possible <= p.thoughts[o].possible && r.thoughts[o].clued == p.thoughts[o].clued
  {
    hide Eliminated, Viewable, TableShape;
    ShapeViewable(st, p);
    var q :| Viewable(st, q) && Eliminated(st, p, q) && SameBeliefs(q, r);
    ElimFiner(st, p, q);
  }

  /** card_elim followed by convention code. */
  method Refine(p: Player, st: State, conv: Convention) returns (r: Option<Player>)
    requires TableShape(st) && PlayerOk(st, p)
    ensures r.Some? ==> PlayerOk(st, r.value) && r.value.playerIndex == p.playerIndex && Refined(st, p, r.value)
    ensures forall w | Fits(w, st) && ViewTrue(w, st, p) :: r.Some? && ViewTrue(w, st, r.value)
  {
    hide Eliminated, Feasible, Consistent;
    ShapeViewable(st, p);
    var q := CardElimFor(p, st);
    forall w | Fits(w, st) && ViewTrue(w, st, p)
      ensures q.Some? && ViewTrue(w, st, q.value)
    {
      ViewConsistent(w, st, p);
      ConsistentFeasible(w, st, p.thoughts);
      ElimFiner(st, p, q.value);
      ElimKeepsTrue(w, st, p, q.value);
    }
    if q.None? {
      return None;
    }
    ElimFiner(st, p, q.value);
    FinerOk(st, p, q.value);
    r := Some(Infer(q.value, st, conv));
    assert SameBeliefs(q.value, r.value);
  }

  lemma ConsistentFeasible(w: Deal, st: State, thoughts: seq<Card>)
    requires st.WellFormed() && Consistent(w, st, thoughts)
    ensures Feasible(st, thoughts)
  {
  }

  lemma ElimFiner(st: State, p: Player, q: Player)
    requires Viewable(st, p) && Viewable(st, q) && Eliminated(st, p, q)
    ensures Finer(st, p, q)
  {
  }

  // ----- team_elimP -----

  type Patches = map<Order, seq<Patch>>

  ghost predicate PatchesOk(st: State, patches: Patches) {
    forall o | o in patches :: o < |st.deck| && (o in HandOrders(st) ==> forall p | p in patches[o] :: !p.SetSeen?)
  }

  /** A player's thoughts once the patches of common knowledge have been replayed on them. */
  function Patched(p: Player, common: Player, patches: Patches): (q: Player)
    requires |p.thoughts| == |common.thoughts|
    ensures q.playerIndex == p.playerIndex && q.allPossible == p.allPossible && |q.thoughts| == |p.thoughts|
    ensures forall o: Order | o < |p.thoughts| :: q.thoughts[o].possible ==
              if o in patches then common.thoughts[o].possible * p.thoughts[o].possible else p.thoughts[o].possible
  {
    p.(thoughts := seq(|p.thoughts|, o requires 0 <= o < |p.thoughts| =>
      if o in patches then
        ApplyPatches(p.thoughts[o], patches[o]).(
          possible := common.thoughts[o].possible * p.thoughts[o].possible,
          inferred := common.thoughts[o].inferred * p.thoughts[o].possible)
      else p.thoughts[o]))
  }

  lemma PatchedTrue(w: Deal, st: State, p: Player, common: Player, patches: Patches)
    requires PatchesOk(st, patches) && |p.thoughts| == |common.thoughts|
    requires ViewTrue(w, st, p) && ViewTrue(w, st, common)
    ensures ViewTrue(w, st, Patched(p, common, patches))
  {
    var q := Patched(p, common, patches);
    forall o | o in HandOrders(st)
      ensures AgreesWithCard(w[o], st.deck[o], q.thoughts[o])
    {
      assert AgreesWithCard(w[o], st.deck[o], p.thoughts[o]);
      assert AgreesWithCard(w[o], st.deck[o], common.thoughts[o]);
    }
  }

  lemma PatchedOk(st: State, p: Player, common: Player, patches: Patches)
    requires PlayerOk(st, p) && PlayerOk(st, common)
    ensures PlayerOk(st, Patched(p, common, patches))
  {
  }

  lemma PatchedSeen(st: State, p: Player, common: Player, patches: Patches)
    requires PatchesOk(st, patches) && |p.thoughts| == |common.thoughts|
    ensures HandsSeen(st, p, Patched(p, common, patches))
  {
  }

  /** Common knowledge about patched cards reaches every player. */
  ghost predicate Shared(common: Player, players: seq<Player>, patches: Patches) {
    forall i, o: Order | 0 <= i < |players| && o in patches && o < |players[i].thoughts| && o < |common.thoughts|
      :: players[i].thoughts[o].possible <= common.thoughts[o].possible
  }

  /** Every player has taken over the patches of common knowledge, and has then gone through card_elim. */
  ghost predicate TeamRefined(st: State, players: seq<Player>, common: Player, patches: Patches, refined: seq<Player>) {
    |refined| == |players|
    && forall i | 0 <= i < |players| ::
         |players[i].thoughts| == |common.thoughts| && Refined(st, Patched(players[i], common, patches), refined[i])
  }

  lemma TeamSees(st: State, players: seq<Player>, common: Player, patches: Patches, refined: seq<Player>)
    requires TeamRefined(st, players, common, patches, refined) && PatchesOk(st, patches)
    ensures Shared(common, refined, patches)
    ensures forall i | 0 <= i < |players| :: HandsSeen(st, players[i], refined[i])
  {
    hide Refined, Patched;
    forall i | 0 <= i < |players|
      ensures HandsSeen(st, players[i], refined[i])
      ensures forall o: Order | o in patches && o < |common.thoughts| && o < |refined[i].thoughts| ::
                refined[i].thoughts[o].possible <= common.thoughts[o].possible
    {
      var p := Patched(players[i], common, patches);
      PatchedSeen(st, players[i], common, patches);
      RefinedFiner(st, p, refined[i]);
      RefinedHands(st, p, refined[i]);
    }
  }

  lemma RefinedHands(st: State, p: Player, r: Player)
    requires Refined(st, p, r)
    ensures HandsSeen(st, p, r)
  {
    RefinedFiner(st, p, r);
  }

  method TeamElim(g: Game, patches: Patches, conv: Convention) returns (r: Option<Game>)
    requires GameOk(g) && PatchesOk(g.state, patches)
    ensures r.Some? ==> GameOk(r.value) && r.value == g.(players := r.value.players)
    ensures r.Some? ==> TeamRefined(g.state, g.players, g.common, patches, r.value.players) && Shared(g.common, r.value.players, patches)
    ensures r.Some? ==> forall i | 0 <= i < |g.players| :: HandsSeen(g.state, g.players[i], r.value.players[i])
    ensures forall w | Fits(w, g.state) && AllTrue(w, g) :: r.Some? && AllTrue(w, r.value)
  {
    hide Refined, Patched, HandsSeen, Shared;
    var players: seq<Player> := [];
    for i := 0 to |g.players|
      invariant |players| == i
      invariant forall j | 0 <= j < i :: PlayerOk(g.state, players[j]) && players[j].playerIndex == j
      invariant forall j | 0 <= j < i :: Refined(g.state, Patched(g.players[j], g.common, patches), players[j])
      invariant forall w, j | Fits(w, g.state) && AllTrue(w, g) && 0 <= j < i :: ViewTrue(w, g.state, players[j])
    {
      var p := g.players[i];
      PatchedOk(g.state, p, g.common, patches);
      var q := Refine(Patched(p, g.common, patches), g.state, conv);
      forall w | Fits(w, g.state) && AllTrue(w, g)
        ensures q.Some? && ViewTrue(w, g.state, q.value)
      {
        assert ViewTrue(w, g.state, p);
        PatchedTrue(w, g.state, p, g.common, patches);
      }
      if q.None? {
        return None;
      }
      players := players + [q.value];
    }
    TeamSees(g.state, g.players, g.common, patches, players);
    r := Some(g.(players := players));
  }

  // ----- The actions -----

  /** What a clue tells everyone about a card of the target's hand. */
  function Told(possible: set<Id>, touched: bool, meaning: set<Id>): set<Id> {
    if touched then possible * meaning else possible - meaning
  }

  /** onClue's update of one card in common knowledge, and the patches it records. */
  function ClueCard(c: Card, touched: bool, meaning: set<Id>): Card {
    var d := c.(possible := Told(c.possible, touched, meaning), inferred := Told(c.inferred, touched, meaning));
    if touched then d.(clued := true, status := if c.clued then c.status else Clued, lastStatus := if c.clued then c.lastStatus else c.status)
    else d
  }

  function CluePatches(c: Card, touched: bool): seq<Patch> {
    if !touched || c.clued then [] else [SetStatus(Clued, c.status), SetClued]
  }

  function HandPatches(common: Player, hand: seq<Order>, list: set<Order>): Patches {
    map o | o in hand && o < |common.thoughts| :: CluePatches(common.thoughts[o], o in list)
  }

  function TellAll(p: Player, hand: seq<Order>, list: set<Order>, meaning: set<Id>): Player {
    p.(thoughts := seq(|p.thoughts|, o requires 0 <= o < |p.thoughts| =>
      if o in hand then ClueCard(p.thoughts[o], o in list, meaning) else p.thoughts[o]))
  }

  /** A state with the same cards in the same places. */
  lemma SameTable(w: Deal, st: State, r: State, p: Player)
    requires r == st.(clueTokens := r.clueTokens, endgameTurns := r.endgameTurns)
    ensures HandOrders(r) == HandOrders(st)
    ensures TableShape(r) == TableShape(st)
    ensures PlayerOk(r, p) == PlayerOk(st, p)
    ensures ViewTrue(w, r, p) == ViewTrue(w, st, p)
  {
    assert Entries(r) == Entries(st);
    assert forall i :: r.ValidId(i) == st.ValidId(i);
  }

  lemma ClueTrue(w: Deal, v: Variant, st: State, owed: Owed, a: Action, p: Player)
    requires a.GiveClue? && Legal(w, v, st, owed, a) && DistinctHands(st.hands) && ViewTrue(w, st, p)
    ensures ViewTrue(w, st, TellAll(p, st.hands[a.target], a.list, FindPossibilities(a.clue, v)))
  {
    var q := TellAll(p, st.hands[a.target], a.list, FindPossibilities(a.clue, v));
    forall o | o in HandOrders(st)
      ensures AgreesWithCard(w[o], st.deck[o], q.thoughts[o])
    {
      assert AgreesWithCard(w[o], st.deck[o], p.thoughts[o]);
    }
  }

  /** Every possibility left on a hand that was clued agrees with the clue. */
  ghost predicate HeedsClue(p: Player, hand: seq<Order>, list: set<Order>, meaning: set<Id>) {
    forall o | o in hand && o < |p.thoughts| ::
      if o in list then p.thoughts[o].possible <= meaning else p.thoughts[o].possible !! meaning
  }

  /** In a plain variant: the cards that were clued keep what has the rank or the suit of the clue, the others what has not. */
  ghost predicate Understands(p: Player, hand: seq<Order>, list: set<Order>, clue: Clue) {
    forall o, id | o in hand && o < |p.thoughts| && id in p.thoughts[o].possible ::
      o in list <==> if clue.Rank? then id.rank == clue.value else id.suit == clue.value
  }

  lemma PlainClueUnderstood(st: State, v: Variant, p: Player, hand: seq<Order>, list: set<Order>, clue: Clue)
    requires Plain(v) && |v.suits| == st.NumSuits()
    requires forall o, i | 0 <= o < |p.thoughts| && i in p.thoughts[o].possible :: st.ValidId(i)
    requires HeedsClue(p, hand, list, FindPossibilities(clue, v))
    ensures Understands(p, hand, list, clue)
  {
    PlainPossibilities(v, clue.value);
    forall o, id | o in hand && o < |p.thoughts| && id in p.thoughts[o].possible
      ensures o in list <==> if clue.Rank? then id.rank == clue.value else id.suit == clue.value
    {
      assert st.ValidId(id);
      assert clue == if clue.Rank? then Rank(clue.value) else Colour(clue.value);
    }
  }

  /** The loop of onClue over the target's hand. */
  method TellHand(common: Player, hand: seq<Order>, list: set<Order>, meaning: set<Id>) returns (newCommon: Player, patches: Patches)
    requires forall o | o in hand :: o < |common.thoughts|
    ensures newCommon == TellAll(common, hand, list, meaning) && patches == HandPatches(common, hand, list)
  {
    newCommon, patches := common, map[];
    for k := 0 to |hand|
      invariant newCommon == TellAll(common, hand[..k], list, meaning) && patches == HandPatches(common, hand[..k], list)
    {
      var o := hand[k];
      assert o in hand;
      var c := common.thoughts[o];
      newCommon := newCommon.(thoughts := newCommon.thoughts[o := ClueCard(c, o in list, meaning)]);
      patches := patches[o := CluePatches(c, o in list)];
      assert hand[..k + 1] == hand[..k] + [o];
      assert newCommon.thoughts == TellAll(common, hand[..k + 1], list, meaning).thoughts;
    }
    assert hand[..|hand|] == hand;
  }

  /** Cards are marked as clued if they were before, or are in the hand and the list of this clue. */
  ghost predicate CluesMarked(p: Player, q: Player, hand: seq<Order>, list: set<Order>) {
    forall o | 0 <= o < |p.thoughts| && o < |q.thoughts| :: q.thoughts[o].clued <==> p.thoughts[o].clued || (o in hand && o in list)
  }

  /** Every player and common knowledge have the same cards marked as clued. */
  ghost predicate MarksAgree(g: Game) {
    forall i, o | 0 <= i < |g.players| && 0 <= o < |g.common.thoughts| && o < |g.players[i].thoughts| ::
      g.players[i].thoughts[o].clued == g.common.thoughts[o].clued
  }

  method OnClue(g: Game, a: Action, v: Variant, conv: Convention) returns (r: Option<Game>)
    requires GameOk(g) && a.GiveClue? && Applicable(g.state, a)
    ensures r.Some? ==> GameOk(r.value) && r.value.state == Next(g.state, a) && r.value.ourPlayer == g.ourPlayer
    ensures var (hand, list) := (g.state.hands[a.target], a.list);
            r.Some? ==>
              && Refined(Next(g.state, a), TellAll(g.common, hand, list, FindPossibilities(a.clue, v)), r.value.common)
              && TeamRefined(Next(g.state, a), g.players, r.value.common, HandPatches(g.common, hand, list), r.value.players)
              && CluesMarked(g.common, r.value.common, hand, list) && (MarksAgree(g) ==> MarksAgree(r.value))
    ensures r.Some? ==> HeedsClue(r.value.common, g.state.hands[a.target], a.list, FindPossibilities(a.clue, v))
    ensures r.Some? ==> forall p | p in r.value.players ::
              HeedsClue(p, g.state.hands[a.target], a.list, FindPossibilities(a.clue, v))
    ensures r.Some? && Plain(v) && |v.suits| == g.state.NumSuits() ==>
              && Understands(r.value.common, g.state.hands[a.target], a.list, a.clue)
              && forall p | p in r.value.players :: Understands(p, g.state.hands[a.target], a.list, a.clue)
    ensures r.Some? ==> forall o | 0 <= o < |g.common.thoughts| ::
              r.value.common.thoughts[o].possible <= g.common.thoughts[o].possible
    ensures r.Some? ==> forall i | 0 <= i < |g.players| :: HandsSeen(g.state, g.players[i], r.value.players[i])
    ensures forall w, owed | AllTrue(w, g) && TableOk(w, g.state, owed) && Legal(w, v, g.state, owed, a)
              :: r.Some? && AllTrue(w, r.value)
  {
    hide AllTrue, TableOk, Legal, Fits, ViewTrue, Understands, HeedsClue, Refined, TeamRefined, HandsSeen, CluesMarked, MarksAgree,
      FindPossibilities;
    var meaning := FindPossibilities(a.clue, v);
    var hand := g.state.hands[a.target];
    ShapeHand(g.state, a.target);
    var newCommon, patches := TellHand(g.common, hand, a.list, meaning);
    var newState := AfterClue(g.state);
    forall w, owed | AllTrue(w, g) && TableOk(w, g.state, owed) && Legal(w, v, g.state, owed, a)
      ensures Fits(w, newState) && ViewTrue(w, newState, newCommon)
      ensures forall i | 0 <= i < |g.players| :: ViewTrue(w, newState, g.players[i])
    {
      ClueAllTrue(w, v, g, owed, a);
    }
    ClueKeepsShape(g, newState, newCommon);
    SameTable([], g.state, newState, g.common);
    r := Settle(g, newState, newCommon, patches, conv);
    if r.Some? {
      ClueSeen(g, newState, r.value);
      ClueReachesAll(g, r.value, v, a, newCommon, patches);
      ClueMarks(g, r.value, v, a, newCommon, patches);
    }
  }

  lemma ClueSeen(g: Game, st: State, h: Game)
    requires st == AfterClue(g.state) && |h.players| == |g.players|
    requires forall i | 0 <= i < |g.players| :: HandsSeen(st, g.players[i], h.players[i])
    ensures forall i | 0 <= i < |g.players| :: HandsSeen(g.state, g.players[i], h.players[i])
  {
    SameTable([], g.state, st, g.common);
    forall i | 0 <= i < |g.players|
      ensures HandsSeen(g.state, g.players[i], h.players[i])
    {
      assert HandsSeen(st, g.players[i], h.players[i]);
    }
  }

  /** What a clue says about the target's hand is known in common and to every player. */
  lemma ClueReachesAll(g: Game, h: Game, v: Variant, a: Action, told: Player, patches: Patches)
    requires GameOk(g) && a.GiveClue? && Applicable(g.state, a) && GameOk(h) && h.state == AfterClue(g.state)
    requires told == TellAll(g.common, g.state.hands[a.target], a.list, FindPossibilities(a.clue, v))
    requires patches == HandPatches(g.common, g.state.hands[a.target], a.list)
    requires Refined(h.state, told, h.common) && TeamRefined(h.state, g.players, h.common, patches, h.players)
    ensures forall p | p == h.common || p in h.players :: HeedsClue(p, g.state.hands[a.target], a.list, FindPossibilities(a.clue, v))
    ensures Plain(v) && |v.suits| == g.state.NumSuits() ==>
              forall p | p == h.common || p in h.players :: Understands(p, g.state.hands[a.target], a.list, a.clue)
    ensures forall o | 0 <= o < |g.common.thoughts| :: h.common.thoughts[o].possible <= g.common.thoughts[o].possible
  {
    hide Refined, TeamRefined, FindPossibilities, HeedsClue, Understands, Plain;
    var hand := g.state.hands[a.target];
    ShapeHand(g.state, a.target);
    RefinedFiner(h.state, told, h.common);
    PatchesSeeNothing(h.state, g.common, hand, a.list);
    TeamSees(h.state, g.players, h.common, patches, h.players);
    assert |h.state.deck| == |g.state.deck| && forall i :: h.state.ValidId(i) == g.state.ValidId(i);
    forall p | p == h.common || p in h.players
      ensures HeedsClue(p, hand, a.list, FindPossibilities(a.clue, v))
      ensures Plain(v) && |v.suits| == g.state.NumSuits() ==> Understands(p, hand, a.list, a.clue)
    {
      assert PlayerOk(h.state, p) by {
        if p != h.common { var i :| 0 <= i < |h.players| && h.players[i] == p; }
      }
      ClueHeeded(g.state, v, g.common, p, hand, a.list, a.clue);
    }
  }

  lemma PatchesSeeNothing(st: State, common: Player, hand: seq<Order>, list: set<Order>)
    requires |st.deck| == |common.thoughts|
    ensures PatchesOk(st, HandPatches(common, hand, list))
  {
  }

  /** The marks of the clue reach everyone. */
  lemma ClueMarks(g: Game, h: Game, v: Variant, a: Action, told: Player, patches: Patches)
    requires GameOk(g) && a.GiveClue? && Applicable(g.state, a) && GameOk(h) && h.state == AfterClue(g.state)
    requires told == TellAll(g.common, g.state.hands[a.target], a.list, FindPossibilities(a.clue, v))
    requires patches == HandPatches(g.common, g.state.hands[a.target], a.list)
    requires Refined(h.state, told, h.common) && TeamRefined(h.state, g.players, h.common, patches, h.players)
    ensures CluesMarked(g.common, h.common, g.state.hands[a.target], a.list) && (MarksAgree(g) ==> MarksAgree(h))
  {
    hide Refined, FindPossibilities;
    var hand := g.state.hands[a.target];
    RefinedFiner(h.state, told, h.common);
    if MarksAgree(g) {
      forall i, o | 0 <= i < |h.players| && 0 <= o < |h.common.thoughts| && o < |h.players[i].thoughts|
        ensures h.players[i].thoughts[o].clued == h.common.thoughts[o].clued
      {
        var p := Patched(g.players[i], h.common, patches);
        RefinedFiner(h.state, p, h.players[i]);
        MarkPatched(g.players[i], h.common, patches, o);
        assert g.players[i].thoughts[o].clued == g.common.thoughts[o].clued;
      }
    }
  }

  lemma MarkPatched(p: Player, common: Player, patches: Patches, o: Order)
    requires |p.thoughts| == |common.thoughts| && o < |p.thoughts|
    ensures o !in patches || patches[o] == [] ==> Patched(p, common, patches).thoughts[o].clued == p.thoughts[o].clued
    ensures o in patches && |patches[o]| == 2 && patches[o][0].SetStatus? && patches[o][1] == SetClued ==>
              Patched(p, common, patches).thoughts[o].clued
  {
    if o in patches && |patches[o]| == 2 && patches[o][0].SetStatus? && patches[o][1] == SetClued {
      var c := ApplyPatch(p.thoughts[o], patches[o][0]);
      assert patches[o][1..][1..] == [];
      assert ApplyPatches(c, patches[o][1..]) == ApplyPatches(ApplyPatch(c, SetClued), []);
    }
  }

  lemma ClueAllTrue(w: Deal, v: Variant, g: Game, owed: Owed, a: Action)
    requires GameOk(g) && a.GiveClue? && AllTrue(w, g) && TableOk(w, g.state, owed) && Legal(w, v, g.state, owed, a)
    ensures Fits(w, AfterClue(g.state))
    ensures ViewTrue(w, AfterClue(g.state), TellAll(g.common, g.state.hands[a.target], a.list, FindPossibilities(a.clue, v)))
    ensures forall i | 0 <= i < |g.players| :: ViewTrue(w, AfterClue(g.state), g.players[i])
  {
    TableStep(w, v, g.state, owed, a);
    ClueTrue(w, v, g.state, owed, a, g.common);
    SameTable(w, g.state, AfterClue(g.state), TellAll(g.common, g.state.hands[a.target], a.list, FindPossibilities(a.clue, v)));
    forall i | 0 <= i < |g.players|
      ensures ViewTrue(w, AfterClue(g.state), g.players[i])
    {
      SameTable(w, g.state, AfterClue(g.state), g.players[i]);
    }
  }

  /** Whoever believes no more than common knowledge after the clue heeds it. */
  lemma ClueHeeded(st: State, v: Variant, common: Player, p: Player, hand: seq<Order>, list: set<Order>, clue: Clue)
    requires |p.thoughts| == |common.thoughts|
    requires forall o, i | 0 <= o < |p.thoughts| && i in p.thoughts[o].possible :: st.ValidId(i)
    requires forall o | o in hand && o < |p.thoughts| ::
               p.thoughts[o].possible <= TellAll(common, hand, list, FindPossibilities(clue, v)).thoughts[o].possible
    ensures HeedsClue(p, hand, list, FindPossibilities(clue, v))
    ensures Plain(v) && |v.suits| == st.NumSuits() ==> Understands(p, hand, list, clue)
  {
    if Plain(v) && |v.suits| == st.NumSuits() {
      PlainClueUnderstood(st, v, p, hand, list, clue);
    }
  }

  lemma ShapeHand(st: State, p: nat)
    requires TableShape(st) && p < |st.hands|
    ensures forall o | o in st.hands[p] :: o < |st.deck|
  {
    forall o | o in st.hands[p]
      ensures o < |st.deck|
    {
      HandOrdersMember(st, o);
    }
  }

  /** What is left to do after the table and common knowledge have changed. */
  ghost predicate Changed(g: Game, st: State, common: Player) {
    && TableShape(st) && PlayerOk(st, common) && common.playerIndex == -1
    && |g.players| == st.NumPlayers()
    && forall i | 0 <= i < |g.players| :: PlayerOk(st, g.players[i]) && g.players[i].playerIndex == i
  }

  lemma ClueKeepsShape(g: Game, st: State, common: Player)
    requires GameOk(g) && st == g.state.(clueTokens := st.clueTokens, endgameTurns := st.endgameTurns)
    requires common.playerIndex == -1 && |common.thoughts| == |g.common.thoughts| && common.allPossible == g.common.allPossible
    requires forall o | 0 <= o < |common.thoughts| :: common.thoughts[o].possible <= g.common.thoughts[o].possible
    ensures Changed(g, st, common)
  {
    SameTable([], g.state, st, g.common);
    assert forall i :: st.ValidId(i) == g.state.ValidId(i);
  }

  /** Elimination on common knowledge, then on every player. */
  method Settle(g: Game, st: State, common: Player, patches: Patches, conv: Convention) returns (r: Option<Game>)
    requires Changed(g, st, common) && PatchesOk(st, patches)
    ensures r.Some? ==> GameOk(r.value) && r.value.state == st && r.value.ourPlayer == g.ourPlayer
    ensures r.Some? ==> Refined(st, common, r.value.common) && TeamRefined(st, g.players, r.value.common, patches, r.value.players)
    ensures r.Some? ==> forall i | 0 <= i < |g.players| :: HandsSeen(st, g.players[i], r.value.players[i])
    ensures forall w | Fits(w, st) && ViewTrue(w, st, common) && (forall i | 0 <= i < |g.players| :: ViewTrue(w, st, g.players[i]))
              :: r.Some? && AllTrue(w, r.value)
  {
    hide Refined, TeamRefined, HandsSeen;
    var newCommon := Refine(common, st, conv);
    if newCommon.None? {
      return None;
    }
    r := TeamElim(g.(state := st, common := newCommon.value), patches, conv);
  }

  // ----- Cards leaving hands -----

  /** A played or discarded card is revealed to everyone. */
  function RevealCard(c: Card, id: Id): Card {
    c.(seen := Some(id), oldPossible := Some(c.possible), oldInferred := Some(c.inferred),
       possible := c.possible * {id}, inferred := c.inferred * {id})
  }

  function Revealed(common: Player, o: Order, id: Id): Player
    requires o < |common.thoughts|
  {
    common.(thoughts := common.thoughts[o := RevealCard(common.thoughts[o], id)])
  }

  function RevealPatches(c: Card, id: Id): seq<Patch> {
    [SetSeen(Some(id)), SetOld(c.possible, c.inferred)]
  }

  /** A view stays true when a card leaves a hand, whatever is written on that card. */
  lemma LeaveTrue(w: Deal, v: Variant, st: State, owed: Owed, a: Action, p: Player, q: Player)
    requires TableOk(w, st, owed) && Legal(w, v, st, owed, a) && (a.Play? || a.Discard?)
    requires ViewTrue(w, st, p) && PlayerOk(st, p)
    requires |q.thoughts| == |p.thoughts| && q.allPossible == p.allPossible
    requires forall o | 0 <= o < |p.thoughts| && o != a.order :: q.thoughts[o] == p.thoughts[o]
    ensures ViewTrue(w, Next(st, a), q)
  {
    HandsStep(st, a);
    forall o | o in HandOrders(Next(st, a))
      ensures AgreesWithCard(w[o], Next(st, a).deck[o], q.thoughts[o])
    {
      assert o != a.order && o in HandOrders(st);
      assert AgreesWithCard(w[o], st.deck[o], p.thoughts[o]);
    }
  }

  lemma LeaveShape(g: Game, a: Action, common: Player)
    requires GameOk(g) && (a.Play? || a.Discard?) && Applicable(g.state, a)
    requires |common.thoughts| == |g.common.thoughts| && common.allPossible == g.common.allPossible && common.playerIndex == -1
    requires forall o | 0 <= o < |common.thoughts| :: common.thoughts[o].possible <= g.common.thoughts[o].possible
    ensures Changed(g, Next(g.state, a), common)
    ensures a.order !in HandOrders(Next(g.state, a))
  {
    HandsStep(g.state, a);
    var st := Next(g.state, a);
    assert forall i :: st.ValidId(i) == g.state.ValidId(i);
  }

  /** onPlay and onDiscard: the card leaves its hand and everyone learns what it was. */
  method OnLeave(g: Game, a: Action, v: Variant, conv: Convention) returns (r: Option<Game>)
    requires GameOk(g) && (a.Play? || a.Discard?) && Applicable(g.state, a)
    ensures r.Some? ==> GameOk(r.value) && r.value.state == Next(g.state, a) && r.value.ourPlayer == g.ourPlayer
    ensures r.Some? ==> if a.id.None? then r.value.common == g.common && TeamRefined(Next(g.state, a), g.players, g.common, map[], r.value.players)
                        else && Refined(Next(g.state, a), Revealed(g.common, a.order, a.id.value), r.value.common)
                             && TeamRefined(Next(g.state, a), g.players, r.value.common,
                                            map[a.order := RevealPatches(g.common.thoughts[a.order], a.id.value)], r.value.players)
    ensures r.Some? && a.id.Some? ==> r.value.common.thoughts[a.order].possible <= {a.id.value}
    ensures r.Some? && a.id.Some? ==> forall p | p in r.value.players :: p.thoughts[a.order].possible <= {a.id.value}
    ensures r.Some? ==> forall i | 0 <= i < |g.players| :: HandsSeen(Next(g.state, a), g.players[i], r.value.players[i])
    ensures r.Some? && MarksAgree(g) ==> MarksAgree(r.value)
    ensures forall w, owed | AllTrue(w, g) && TableOk(w, g.state, owed) && Legal(w, v, g.state, owed, a)
              :: r.Some? && AllTrue(w, r.value)
  {
    hide ViewTrue, Legal, Consistent, HandsSeen, Refined, TeamRefined, MarksAgree;
    var newState := Next(g.state, a);
    var newCommon := g.common;
    var patches: Patches := map[];
    if a.id.Some? {
      newCommon := Revealed(g.common, a.order, a.id.value);
      patches := map[a.order := RevealPatches(g.common.thoughts[a.order], a.id.value)];
    }
    LeaveShape(g, a, newCommon);
    forall w, owed | AllTrue(w, g) && TableOk(w, g.state, owed) && Legal(w, v, g.state, owed, a)
      ensures Fits(w, newState) && ViewTrue(w, newState, newCommon)
      ensures forall i | 0 <= i < |g.players| :: ViewTrue(w, newState, g.players[i])
    {
      TableStep(w, v, g.state, owed, a);
      LeaveTrue(w, v, g.state, owed, a, g.common, newCommon);
      forall i | 0 <= i < |g.players|
        ensures ViewTrue(w, newState, g.players[i])
      {
        LeaveTrue(w, v, g.state, owed, a, g.players[i], g.players[i]);
      }
    }
    if a.id.Some? {
      r := Settle(g, newState, newCommon, patches, conv);
      if r.Some? {
        RevealReachesAll(newState, newCommon, g.players, r.value.common, patches, r.value.players, a.order, a.id.value);
        RefinedFiner(newState, newCommon, r.value.common);
      }
    } else {
      r := TeamElim(g.(state := newState), patches, conv);
    }
    if r.Some? { LeaveMarks(g, r.value, patches); }
  }

  /** Cards stay marked as they were when nothing is clued. */
  lemma LeaveMarks(g: Game, h: Game, patches: Patches)
    requires |h.common.thoughts| == |g.common.thoughts|
    requires forall o | 0 <= o < |g.common.thoughts| :: h.common.thoughts[o].clued == g.common.thoughts[o].clued
    requires TeamRefined(h.state, g.players, h.common, patches, h.players)
    requires forall o, p | o in patches && p in patches[o] :: p != SetClued
    ensures MarksAgree(g) ==> MarksAgree(h)
  {
    hide Refined;
    if MarksAgree(g) {
      forall i, o | 0 <= i < |h.players| && 0 <= o < |h.common.thoughts| && o < |h.players[i].thoughts|
        ensures h.players[i].thoughts[o].clued == h.common.thoughts[o].clued
      {
        RefinedFiner(h.state, Patched(g.players[i], h.common, patches), h.players[i]);
        assert g.players[i].thoughts[o].clued == g.common.thoughts[o].clued;
      }
    }
  }

  lemma RevealReachesAll(st: State, revealed: Player, players: seq<Player>, common: Player, patches: Patches, refined: seq<Player>, o: Order, id: Id)
    requires Refined(st, revealed, common) && TeamRefined(st, players, common, patches, refined) && PatchesOk(st, patches)
    requires o in patches && o < |revealed.thoughts| && revealed.thoughts[o].possible <= {id}
    requires forall p | p in refined :: o < |p.thoughts|
    ensures |common.thoughts| == |revealed.thoughts| && common.thoughts[o].possible <= {id}
    ensures forall p | p in refined :: p.thoughts[o].possible <= {id}
  {
    hide Refined, TeamRefined;
    RefinedFiner(st, revealed, common);
    TeamSees(st, players, common, patches, refined);
  }

  // ----- Drawing -----

  /** `new Card(...)` for a card that has just been drawn. */
  function FreshCard(seen: Option<Id>, possible: set<Id>): Card {
    Card(seen, possible, possible, None, None, None, None, NoStatus, NoStatus, false, false, false, false)
  }

  function WithDrawn(p: Player, seen: Option<Id>): Player {
    p.(thoughts := p.thoughts + [FreshCard(seen, p.allPossible)])
  }

  /** What player i sees of a card drawn by another: its identity, unless it is their own. */
  function SeenBy(g: Game, a: Action, i: int): Option<Id>
    requires a.Draw?
  {
    if i != a.player || i == g.ourPlayer then a.id else None
  }

  lemma DrawTrue(w: Deal, v: Variant, st: State, owed: Owed, a: Action, p: Player, seen: Option<Id>)
    requires TableOk(w, st, owed) && Legal(w, v, st, owed, a) && a.Draw?
    requires ViewTrue(w, st, p) && PlayerOk(st, p) && (seen == a.id || seen == None)
    ensures ViewTrue(w, Next(st, a), WithDrawn(p, seen))
  {
    HandsStep(st, a);
    var q := WithDrawn(p, seen);
    forall o | o in HandOrders(Next(st, a))
      ensures o < |w| && AgreesWithCard(w[o], Next(st, a).deck[o], q.thoughts[o])
    {
      if o != a.order {
        assert AgreesWithCard(w[o], st.deck[o], p.thoughts[o]);
      }
    }
  }

  lemma DrawShape(g: Game, a: Action)
    requires GameOk(g) && a.Draw? && Applicable(g.state, a)
    ensures TableShape(Next(g.state, a)) && Next(g.state, a).NumPlayers() == g.state.NumPlayers()
    ensures forall p: Player, seen | PlayerOk(g.state, p) :: PlayerOk(Next(g.state, a), WithDrawn(p, seen))
  {
    HandsStep(g.state, a);
    var st := Next(g.state, a);
    assert forall i :: st.ValidId(i) == g.state.ValidId(i);
  }

  method OnDraw(g: Game, a: Action, v: Variant, conv: Convention) returns (r: Option<Game>)
    requires GameOk(g) && a.Draw? && Applicable(g.state, a)
    ensures r.Some? ==> GameOk(r.value) && r.value.state == Next(g.state, a) && r.value.ourPlayer == g.ourPlayer
    ensures r.Some? ==> |r.value.players| == |g.players| && Refined(Next(g.state, a), WithDrawn(g.common, None), r.value.common)
    ensures r.Some? ==> forall i | 0 <= i < |g.players| ::
              Refined(Next(g.state, a), WithDrawn(g.players[i], if i == a.player && i != g.ourPlayer then None else a.id), r.value.players[i])
    ensures r.Some? ==> r.value.common.thoughts[a.order].possible <= g.common.allPossible
    ensures r.Some? ==> forall i | 0 <= i < |g.players| ::
              r.value.players[i].thoughts[a.order].possible <= g.players[i].allPossible
    ensures r.Some? ==> forall i | 0 <= i < |g.players| ::
              && SameSeen(g.players[i], r.value.players[i], |g.state.deck|)
              && r.value.players[i].thoughts[a.order].seen == if i == a.player && i != g.ourPlayer then None else a.id
    ensures r.Some? ==> SameSeen(g.common, r.value.common, |g.state.deck|) && r.value.common.thoughts[a.order].seen == None
    ensures r.Some? && MarksAgree(g) ==> MarksAgree(r.value)
    ensures forall w, owed | AllTrue(w, g) && TableOk(w, g.state, owed) && Legal(w, v, g.state, owed, a)
              :: r.Some? && AllTrue(w, r.value) && w[a.order] in g.common.allPossible
  {
    hide Refined, ViewTrue, TableOk, Legal, SameSeen, MarksAgree;
    var newState := Next(g.state, a);
    DrawShape(g, a);
    var players: seq<Player> := [];
    for i := 0 to |g.players|
      invariant |players| == i
      invariant forall j | 0 <= j < i :: PlayerOk(newState, players[j]) && players[j].playerIndex == j
      invariant forall j | 0 <= j < i :: Refined(newState, WithDrawn(g.players[j], SeenBy(g, a, j)), players[j])
      invariant forall w, owed, j | AllTrue(w, g) && TableOk(w, g.state, owed) && Legal(w, v, g.state, owed, a) && 0 <= j < i
                  :: ViewTrue(w, newState, players[j])
    {
      var drawn := WithDrawn(g.players[i], SeenBy(g, a, i));
      var q := Refine(drawn, newState, conv);
      forall w, owed | AllTrue(w, g) && TableOk(w, g.state, owed) && Legal(w, v, g.state, owed, a)
        ensures q.Some? && ViewTrue(w, newState, q.value)
      {
        TableStep(w, v, g.state, owed, a);
        DrawTrue(w, v, g.state, owed, a, g.players[i], SeenBy(g, a, i));
      }
      if q.None? {
        return None;
      }
      players := players + [q.value];
    }
    var newCommon := Refine(WithDrawn(g.common, None), newState, conv);
    forall w, owed | AllTrue(w, g) && TableOk(w, g.state, owed) && Legal(w, v, g.state, owed, a)
      ensures newCommon.Some? && ViewTrue(w, newState, newCommon.value) && a.order < |w| && w[a.order] in g.common.allPossible
    {
      TableStep(w, v, g.state, owed, a);
      DrawTrue(w, v, g.state, owed, a, g.common, None);
      DrawnPossible(w, v, g.state, owed, a, g.common);
    }
    if newCommon.None? {
      return None;
    }
    forall i | 0 <= i < |g.players|
      ensures DrawnSeen(g, a, g.players[i], players[i], SeenBy(g, a, i))
    {
      DrawnFresh(g, a, g.players[i], players[i], SeenBy(g, a, i));
    }
    DrawnFresh(g, a, g.common, newCommon.value, None);
    r := Some(g.(state := newState, players := players, common := newCommon.value));
    DrawMarks(g, r.value, a);
  }

  lemma DrawMarks(g: Game, h: Game, a: Action)
    requires a.Draw? && GameOk(g) && |h.players| == |g.players| && Refined(h.state, WithDrawn(g.common, None), h.common)
    requires forall i | 0 <= i < |g.players| :: Refined(h.state, WithDrawn(g.players[i], SeenBy(g, a, i)), h.players[i])
    ensures MarksAgree(g) ==> MarksAgree(h)
  {
    hide Refined;
    if MarksAgree(g) {
      RefinedFiner(h.state, WithDrawn(g.common, None), h.common);
      forall i, o | 0 <= i < |h.players| && 0 <= o < |h.common.thoughts| && o < |h.players[i].thoughts|
        ensures h.players[i].thoughts[o].clued == h.common.thoughts[o].clued
      {
        RefinedFiner(h.state, WithDrawn(g.players[i], SeenBy(g, a, i)), h.players[i]);
        assert o < |g.common.thoughts| ==> g.players[i].thoughts[o].clued == g.common.thoughts[o].clued;
      }
    }
  }

  lemma DrawnPossible(w: Deal, v: Variant, st: State, owed: Owed, a: Action, p: Player)
    requires TableOk(w, st, owed) && Legal(w, v, st, owed, a) && a.Draw? && ViewTrue(w, st, p)
    ensures a.order < |w| && w[a.order] in p.allPossible
  {
  }

  /** What becomes of a viewer when a card is drawn, as far as sight goes. */
  ghost predicate DrawnSeen(g: Game, a: Action, p: Player, r: Player, seen: Option<Id>)
    requires a.Draw?
  {
    && a.order < |r.thoughts| && SameSeen(p, r, |g.state.deck|)
    && r.thoughts[a.order].seen == seen && r.thoughts[a.order].possible <= p.allPossible
  }

  lemma DrawnFresh(g: Game, a: Action, p: Player, r: Player, seen: Option<Id>)
    requires a.Draw? && Applicable(g.state, a) && PlayerOk(g.state, p) && Refined(Next(g.state, a), WithDrawn(p, seen), r)
    ensures DrawnSeen(g, a, p, r, seen)
  {
    hide Refined;
    RefinedFiner(Next(g.state, a), WithDrawn(p, seen), r);
  }

  // ----- Whole runs -----

  /** `new Game(state)`: every identity is possible and no card has been drawn. */
  function NewGame(v: Variant, numPlayers: nat, ourPlayer: nat, deckSize: nat): Game {
    var all := set s, r | 0 <= s < |v.suits| && 1 <= r <= MAX_RANK :: Id(s, r);
    Game(NewState(v, numPlayers, deckSize), Player(-1, [], all, all),
         seq(numPlayers, i => Player(i, [], all, all)), ourPlayer)
  }

  lemma NewGameOk(v: Variant, numPlayers: nat, ourPlayer: nat, deckSize: nat)
    requires numPlayers > 0
    ensures GameOk(NewGame(v, numPlayers, ourPlayer, deckSize))
    ensures forall w | IsDeck(w, v) && |w| == deckSize :: AllTrue(w, NewGame(v, numPlayers, ourPlayer, deckSize))
  {
    NewStateEmpty(v, numPlayers, deckSize);
  }

  /** Whoever could see a card in a hand before still sees it, and a card just drawn is seen by everyone but its drawer,
      unless that is us. */
  ghost predicate SightKept(g: Game, h: Game, a: Action) {
    && |h.players| == |g.players|
    && (forall i, o | 0 <= i < |g.players| && o in HandOrders(h.state) && o < |g.state.deck| && o < |g.players[i].thoughts| ::
          o < |h.players[i].thoughts| && h.players[i].thoughts[o].seen == g.players[i].thoughts[o].seen)
    && (a.Draw? ==> forall i | 0 <= i < |h.players| ::
          a.order < |h.players[i].thoughts|
          && h.players[i].thoughts[a.order].seen == if i == a.player && i != g.ourPlayer then None else a.id)
  }

  /** Every player sees the cards in other hands whose draws reported them, and we also see our own. */
  ghost predicate SeesHands(g: Game, done: seq<Action>) {
    forall d, i | d in done && d.Draw? && d.id.Some? && d.order in HandOrders(g.state)
                  && 0 <= i < |g.players| && (i != d.player || i == g.ourPlayer) :: Sees(g, d.order, d.id, i)
  }

  ghost predicate Sees(g: Game, o: Order, id: Option<Id>, i: int)
    requires 0 <= i < |g.players|
  {
    o < |g.players[i].thoughts| && g.players[i].thoughts[o].seen == id
  }

  lemma SeesHandsAfter(g: Game, h: Game, done: seq<Action>, a: Action)
    requires GameOk(g) && Applicable(g.state, a) && h.state == Next(g.state, a) && h.ourPlayer == g.ourPlayer
    requires SightKept(g, h, a) && SeesHands(g, done)
    requires forall d | d in done && d.Draw? :: d.order < |g.state.deck|
    ensures SeesHands(h, done + [a])
    ensures forall d | d in done + [a] && d.Draw? :: d.order < |h.state.deck|
  {
    HandsStep(g.state, a);
    forall d, i | d in done + [a] && d.Draw? && d.id.Some? && d.order in HandOrders(h.state)
                  && 0 <= i < |h.players| && (i != d.player || i == h.ourPlayer)
      ensures Sees(h, d.order, d.id, i)
    {
      if d in done {
        assert d.order in HandOrders(g.state) && d.order < |g.state.deck|;
        assert Sees(g, d.order, d.id, i);
      }
    }
  }

  /** Whoever sees a card knows what it is. */
  lemma SeenIsKnown(w: Deal, g: Game, o: Order, id: Id, i: int)
    requires AllTrue(w, g) && 0 <= i < |g.players| && o in HandOrders(g.state) && Sees(g, o, Some(id), i)
    ensures id == w[o] && g.players[i].thoughts[o].Identity(false) == Some(id)
  {
    assert AgreesWithCard(w[o], g.state.deck[o], g.players[i].thoughts[o]);
    IdentityRight(w[o], g.state.deck[o], g.players[i].thoughts[o], false);
  }

  method HandleAction(g: Game, a: Action, v: Variant, conv: Convention) returns (r: Option<Game>)
    requires GameOk(g) && Applicable(g.state, a)
    ensures r.Some? ==> GameOk(r.value) && r.value.state == Next(g.state, a) && r.value.ourPlayer == g.ourPlayer
    ensures r.Some? ==> SightKept(g, r.value, a) && (MarksAgree(g) ==> MarksAgree(r.value))
    ensures forall w, owed | AllTrue(w, g) && TableOk(w, g.state, owed) && Legal(w, v, g.state, owed, a)
              :: r.Some? && AllTrue(w, r.value)
  {
    HandsStep(g.state, a);
    match a
    case Draw(_, _, _) => r := OnDraw(g, a, v, conv);
    case GiveClue(_, _, _, _) => r := OnClue(g, a, v, conv);
    case Play(_, _, _) => r := OnLeave(g, a, v, conv);
    case Discard(_, _, _, _) => r := OnLeave(g, a, v, conv);
  }

  /** The decks for which a run from the start of the game is legal. */
  ghost predicate Plays(w: Deal, v: Variant, numPlayers: nat, deckSize: nat, owed: Owed, actions: seq<Action>) {
    IsDeck(w, v) && |w| == deckSize && |owed| <= |w| && LegalRun(w, v, NewState(v, numPlayers, deckSize), owed, actions)
  }

  /** Where a replay stands before the remaining actions. */
  ghost predicate Standing(w: Deal, v: Variant, numPlayers: nat, owed: Owed, actions: seq<Action>, g: Game, now: Owed, rest: seq<Action>)
    requires LegalRun(w, v, NewState(v, numPlayers, |w|), owed, actions)
  {
    && TableOk(w, g.state, now) && AllTrue(w, g)
    && LegalRun(w, v, g.state, now, rest)
    && Final(w, v, NewState(v, numPlayers, |w|), owed, actions) == Final(w, v, g.state, now, rest)
  }

  lemma StandingStart(w: Deal, v: Variant, numPlayers: nat, ourPlayer: nat, owed: Owed, actions: seq<Action>)
    requires numPlayers > 0 && Plays(w, v, numPlayers, |w|, owed, actions)
    ensures Standing(w, v, numPlayers, owed, actions, NewGame(v, numPlayers, ourPlayer, |w|), owed, actions)
  {
    NewStateOk(w, v, numPlayers, owed);
    NewGameOk(v, numPlayers, ourPlayer, |w|);
  }

  lemma StandingStep(w: Deal, v: Variant, numPlayers: nat, owed: Owed, actions: seq<Action>, g: Game, now: Owed, rest: seq<Action>, h: Game)
    requires Plays(w, v, numPlayers, |w|, owed, actions)
    requires Standing(w, v, numPlayers, owed, actions, g, now, rest) && rest != []
    requires Legal(w, v, g.state, now, rest[0]) && h.state == Next(g.state, rest[0]) && AllTrue(w, h)
    ensures Standing(w, v, numPlayers, owed, actions, h, NextOwed(g.state, now, rest[0]), rest[1..])
  {
    TableStep(w, v, g.state, now, rest[0]);
  }

  /** Every player identifies the cards in other hands whose draws reported them, and we also our own. */
  ghost predicate KnowsHands(w: Deal, g: Game, actions: seq<Action>) {
    forall d, i | d in actions && d.Draw? && d.id.Some? && d.order in HandOrders(g.state)
                  && 0 <= i < |g.players| && (i != d.player || i == g.ourPlayer) ::
      d.order < |w| && d.order < |g.players[i].thoughts| && g.players[i].thoughts[d.order].Identity(false) == Some(w[d.order])
  }

  lemma SeesThenKnows(w: Deal, g: Game, actions: seq<Action>)
    requires AllTrue(w, g) && SeesHands(g, actions)
    ensures KnowsHands(w, g, actions)
  {
    forall d, i | d in actions && d.Draw? && d.id.Some? && d.order in HandOrders(g.state)
                  && 0 <= i < |g.players| && (i != d.player || i == g.ourPlayer)
      ensures d.order < |w| && d.order < |g.players[i].thoughts| && g.players[i].thoughts[d.order].Identity(false) == Some(w[d.order])
    {
      assert Sees(g, d.order, d.id, i);
      SeenIsKnown(w, g, d.order, d.id.value, i);
    }
  }

  /** After k actions every deal that the run is legal for fits what everyone believes. */
  ghost predicate OnTrack(v: Variant, numPlayers: nat, deckSize: nat, owed: Owed, actions: seq<Action>, g: Game, now: Owed, k: nat) {
    k <= |actions| && forall w | Plays(w, v, numPlayers, deckSize, owed, actions) :: Standing(w, v, numPlayers, owed, actions, g, now, actions[k..])
  }

  /** The first k actions have been seen by those who could see them. */
  ghost predicate Watched(g: Game, actions: seq<Action>, k: nat) {
    k <= |actions| && MarksAgree(g) && SeesHands(g, actions[..k]) && forall d | d in actions[..k] && d.Draw? :: d.order < |g.state.deck|
  }

  lemma WatchedMarks(g: Game, actions: seq<Action>, k: nat)
    requires Watched(g, actions, k)
    ensures MarksAgree(g)
  {
  }

  lemma WatchedMore(g: Game, h: Game, actions: seq<Action>, k: nat)
    requires k < |actions| && Watched(g, actions, k) && GameOk(g) && Applicable(g.state, actions[k])
    requires h.state == Next(g.state, actions[k]) && h.ourPlayer == g.ourPlayer && SightKept(g, h, actions[k]) && MarksAgree(h)
    ensures Watched(h, actions, k + 1)
  {
    assert actions[..k + 1] == actions[..k] + [actions[k]];
    hide SeesHands, SightKept, GameOk;
    SeesHandsAfter(g, h, actions[..k], actions[k]);
  }

  /** One action of a replay. */
  method ReplayOne(v: Variant, numPlayers: nat, deckSize: nat, ghost owed: Owed, actions: seq<Action>, conv: Convention,
                   g: Game, ghost now: Owed, k: nat)
      returns (r: Option<Game>, ghost next: Owed)
    requires k < |actions| && GameOk(g) && OnTrack(v, numPlayers, deckSize, owed, actions, g, now, k) && Watched(g, actions, k)
    ensures r.Some? ==> GameOk(r.value) && r.value.ourPlayer == g.ourPlayer && Watched(r.value, actions, k + 1)
    ensures r.Some? ==> OnTrack(v, numPlayers, deckSize, owed, actions, r.value, next, k + 1)
    ensures forall w | Plays(w, v, numPlayers, deckSize, owed, actions) :: r.Some?
  {
    hide AllTrue, TableOk, Legal, GameOk, NewState, IsDeck, SightKept, Watched, MarksAgree;
    var a := actions[k];
    next := now;
    assert actions[k..][0] == a && actions[k..][1..] == actions[k + 1..];
    forall w | Plays(w, v, numPlayers, deckSize, owed, actions)
      ensures Legal(w, v, g.state, now, a) && Applicable(g.state, a)
    {
      assert Standing(w, v, numPlayers, owed, actions, g, now, actions[k..]);
      LegalApplies(w, v, g.state, now, a);
    }
    if !Applicable(g.state, a) {
      return None, next;
    }
    r := HandleAction(g, a, v, conv);
    forall w | Plays(w, v, numPlayers, deckSize, owed, actions)
      ensures r.Some? && Standing(w, v, numPlayers, owed, actions, r.value, NextOwed(g.state, now, a), actions[k + 1..])
    {
      assert Standing(w, v, numPlayers, owed, actions, g, now, actions[k..]);
      assert r.Some? && AllTrue(w, r.value);
      StandingStep(w, v, numPlayers, owed, actions, g, now, actions[k..], r.value);
    }
    next := NextOwed(g.state, now, a);
    if r.Some? {
      WatchedMarks(g, actions, k);
      WatchedMore(g, r.value, actions, k);
    }
  }

  /** Replays a run from the start of the game. For every deck that the run is legal for, no error is raised,
      in the end the true identity of every card is still among its possibilities, for every viewer,
      and the cards that a viewer can see are known to them. */
  method Replay(v: Variant, numPlayers: nat, ourPlayer: nat, deckSize: nat, ghost owed: Owed, actions: seq<Action>, conv: Convention)
      returns (r: Option<Game>)
    requires numPlayers > 0
    ensures r.Some? ==> GameOk(r.value) && r.value.ourPlayer == ourPlayer && SeesHands(r.value, actions) && MarksAgree(r.value)
    ensures forall w | Plays(w, v, numPlayers, deckSize, owed, actions)
              :: r.Some? && AllTrue(w, r.value) && KnowsHands(w, r.value, actions)
                 && r.value.state == Final(w, v, NewState(v, numPlayers, deckSize), owed, actions).0
  {
    var g := NewGame(v, numPlayers, ourPlayer, deckSize);
    NewGameOk(v, numPlayers, ourPlayer, deckSize);
    ghost var now := owed;
    forall w | Plays(w, v, numPlayers, deckSize, owed, actions)
      ensures Standing(w, v, numPlayers, owed, actions, g, now, actions)
    {
      StandingStart(w, v, numPlayers, ourPlayer, owed, actions);
    }
    assert actions[0..] == actions && actions[..0] == [];
    assert Watched(g, actions, 0);
    hide AllTrue, GameOk, KnowsHands, SeesHands, Standing, Plays, NewState;
    var k := 0;
    while k < |actions|
      invariant 0 <= k <= |actions| && GameOk(g) && g.ourPlayer == ourPlayer && Watched(g, actions, k)
      invariant OnTrack(v, numPlayers, deckSize, owed, actions, g, now, k)
    {
      var next;
      next, now := ReplayOne(v, numPlayers, deckSize, owed, actions, conv, g, now, k);
      if next.None? {
        return None;
      }
      g := next.value;
      k := k + 1;
    }
    assert actions[..|actions|] == actions;
    forall w | Plays(w, v, numPlayers, deckSize, owed, actions)
      ensures AllTrue(w, g) && KnowsHands(w, g, actions) && g.state == Final(w, v, NewState(v, numPlayers, deckSize), owed, actions).0
    {
      StandingEnd(w, v, numPlayers, owed, actions, g, now, k);
      SeesThenKnows(w, g, actions);
    }
    r := Some(g);
  }

  lemma StandingEnd(w: Deal, v: Variant, numPlayers: nat, owed: Owed, actions: seq<Action>, g: Game, now: Owed, k: nat)
    requires k == |actions| && Plays(w, v, numPlayers, |w|, owed, actions) && OnTrack(v, numPlayers, |w|, owed, actions, g, now, k)
    ensures AllTrue(w, g) && g.state == Final(w, v, NewState(v, numPlayers, |w|), owed, actions).0
  {
    assert Standing(w, v, numPlayers, owed, actions, g, now, actions[k..]);
  }

  lemma LegalApplies(w: Deal, v: Variant, st: State, owed: Owed, a: Action)
    requires Legal(w, v, st, owed, a)
    ensures Applicable(st, a)
  {
  }
}
