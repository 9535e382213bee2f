// `update_hypo_stacks` of src/basics/Player.js. Whether a card looks playable is left open: it may depend on anything
// computed so far. Whatever the answers, the loop ends and the accounts of the hypothetical stacks are exact.
module HypoStacks {
  import opened Cards

  /** The variables of the loop. */
  datatype Hypo = Hypo(stacks: seq<nat>, unknown: set<Order>, played: set<Order>, elim: set<Id>)
  {
    /** `hypo_score` */
    function Score(): nat { Sum(stacks) + |unknown| }
  }

  /** A card looks unplayable, doubles an unknown play, is playable without its identity being known, or is known. */
  datatype Verdict = NotPlayable | Doubles(existing: Order, id: Id) | Unidentified | Identified(id: Id)

  type Judge = (Order, Hypo) -> Verdict

  /** Orders of which one is the identity, for certain if promised. */
  datatype Link = Link(orders: seq<Order>, promised: bool, target: Id)

  predicate Fulfilled(l: Link, unknown: set<Order>) {
    l.promised && forall o | o in l.orders :: o in unknown
  }

  /** What is taken to be played is what the stacks have gained. */
  ghost predicate ElimIsGain(base: seq<nat>, h: Hypo) {
    forall id: Id :: id in h.elim <==> id.suit < |base| && id.suit < |h.stacks| && base[id.suit] < id.rank <= h.stacks[id.suit]
  }

  /** Every point on the stacks is a known play or a link of `done`, each counted once. */
  ghost predicate Accounted(base: seq<nat>, links: seq<Link>, h: Hypo, done: set<nat>) {
    && |h.stacks| == |base| && (forall s | 0 <= s < |base| :: base[s] <= h.stacks[s])
    && h.unknown <= h.played && ElimIsGain(base, h)
    && (forall k | k in done :: k < |links| && links[k].orders != [] && Fulfilled(links[k], h.unknown))
    && Sum(h.stacks) == Sum(base) + |h.played - h.unknown| + |done|
  }

  lemma AddOne(s: set<Order>, o: Order)
    requires o !in s
    ensures |s + {o}| == |s| + 1
  {
  }

  /** The next card of a suit raises its stack by one. */
  lemma Raise(base: seq<nat>, stacks: seq<nat>, id: Id)
    requires |stacks| == |base| && id.suit < |stacks| && id.rank == stacks[id.suit] + 1
    requires forall s | 0 <= s < |base| :: base[s] <= stacks[s]
    ensures Sum(stacks[id.suit := id.rank]) == Sum(stacks) + 1
    ensures forall s | 0 <= s < |base| :: base[s] <= stacks[id.suit := id.rank][s]
  {
    SumUpdate(stacks, id.suit, id.rank);
  }

  /** Playing the card fulfils the link, and its identity comes next on its stack or is there already. */
  ghost predicate Promised(l: Link, h: Hypo, o: Order)
    requires l.target.suit < |h.stacks|
  {
    Fulfilled(l, h.unknown + {o}) && o in l.orders && l.target.rank <= h.stacks[l.target.suit] + 1
  }

  /** A link's identity goes onto its stack. */
  lemma LinkPlayed(base: seq<nat>, links: seq<Link>, h: Hypo, k: nat, done: set<nat>)
    requires Accounted(base, links, h, done) && k < |links| && k !in done && links[k].orders != [] && Fulfilled(links[k], h.unknown)
    requires links[k].target.suit < |h.stacks| && links[k].target.rank == h.stacks[links[k].target.suit] + 1
    ensures var id := links[k].target;
            Accounted(base, links, h.(stacks := h.stacks[id.suit := id.rank], elim := h.elim + {id}), done + {k})
  {
    Raise(base, h.stacks, links[k].target);
    assert |done + {k}| == |done| + 1;
  }

  lemma UnknownPlayed(base: seq<nat>, links: seq<Link>, h: Hypo, o: Order, done: set<nat>)
    requires Accounted(base, links, h, done) && o !in h.played
    ensures Accounted(base, links, h.(unknown := h.unknown + {o}, played := h.played + {o}), done)
    ensures forall k | k in done :: k < |links| && (o in links[k].orders ==> o in h.unknown)
  {
    assert (h.played + {o}) - (h.unknown + {o}) == h.played - h.unknown;
  }

  lemma KnownPlayed(base: seq<nat>, links: seq<Link>, h: Hypo, o: Order, id: Id, done: set<nat>)
    requires Accounted(base, links, h, done) && o !in h.played && id.suit < |h.stacks| && id.rank == h.stacks[id.suit] + 1
    ensures Accounted(base, links, h.(stacks := h.stacks[id.suit := id.rank], elim := h.elim + {id}, played := h.played + {o}), done)
  {
    Raise(base, h.stacks, id);
    assert (h.played + {o}) - h.unknown == (h.played - h.unknown) + {o};
  }

  lemma AccountedShape(base: seq<nat>, links: seq<Link>, h: Hypo, done: set<nat>)
    requires Accounted(base, links, h, done)
    ensures |h.stacks| == |base| && h.unknown <= h.played
  {
  }

  /** The links that an unknown play completes. */
  method PlayLinks(base: seq<nat>, links: seq<Link>, h: Hypo, o: Order, ghost done: set<nat>) returns (h': Hypo, ghost done': set<nat>)
    requires (forall l | l in links :: l.target.suit < |h.stacks|) && o !in h.played && Accounted(base, links, h, done)
    ensures h'.unknown == h.unknown + {o} && h'.played == h.played + {o} && done <= done' && |h'.stacks| == |h.stacks|
    ensures Accounted(base, links, h', done')
    ensures forall l | l in links && Promised(l, h, o) :: l.target.rank <= h'.stacks[l.target.suit]
  {
    hide Accounted, Fulfilled;
    AccountedShape(base, links, h, done);
    UnknownPlayed(base, links, h, o, done);
    h' := h.(unknown := h.unknown + {o}, played := h.played + {o});
    done' := done;
    for k := 0 to |links|
      invariant h'.unknown == h.unknown + {o} && h'.played == h.played + {o} && Accounted(base, links, h', done') && done <= done'
      invariant forall i | i in done' && i !in done :: i < k
      invariant |h'.stacks| == |h.stacks| && forall s | 0 <= s < |h.stacks| :: h.stacks[s] <= h'.stacks[s]
      invariant forall j | 0 <= j < k && Promised(links[j], h, o) :: links[j].target.rank <= h'.stacks[links[j].target.suit]
    {
      var l := links[k];
      assert l in links;
      if Fulfilled(l, h'.unknown) && o in l.orders && l.target.rank == h'.stacks[l.target.suit] + 1 {
        LinkPlayed(base, links, h', k, done');
        h' := h'.(stacks := h'.stacks[l.target.suit := l.target.rank], elim := h'.elim + {l.target});
        done' := done' + {k};
      }
    }
  }

  /** How a card is played: onto its stack if it is identified, else as an unknown play that keeps the promises of links. */
  ghost predicate PlayedAs(links: seq<Link>, judge: Judge, h: Hypo, o: Order, h': Hypo) {
    && h'.played == h.played + {o} && |h'.stacks| == |h.stacks|
    && match judge(o, h)
       case Identified(id) =>
         && h'.unknown == h.unknown && id.suit < |h.stacks| && id.rank == h.stacks[id.suit] + 1
         && h'.stacks == h.stacks[id.suit := id.rank]
       case Unidentified =>
         h'.unknown == h.unknown + {o}
         && forall l | l in links && l.target.suit < |h.stacks| && Promised(l, h, o) :: l.target.rank <= h'.stacks[l.target.suit]
       case _ => false
  }

  /** The unknown play that this card would double, and as what. */
  function DoubledPlay(judge: Judge, ignore: set<Order>, h: Hypo, o: Order): Option<(Order, Id)> {
    if o in ignore || o in h.unknown || o in h.played then None
    else match judge(o, h)
         case Doubles(existing, id) => Some((existing, id))
         case _ => None
  }

  /** One card of the pass. */
  method Visit(base: seq<nat>, links: seq<Link>, judge: Judge, ignore: set<Order>, h: Hypo, o: Order, ghost done: set<nat>)
      returns (h': Hypo, found: bool, double: Option<(Order, Id)>, ghost done': set<nat>)
    requires (forall l | l in links :: l.target.suit < |base|) && Accounted(base, links, h, done)
    ensures Accounted(base, links, h', done')
    ensures if found then o !in h.played && o !in ignore && h.unknown <= h'.unknown && PlayedAs(links, judge, h, o, h')
            else h' == h && done' == done && !Playable(judge, ignore, h, o)
    ensures double == DoubledPlay(judge, ignore, h, o)
  {
    hide Accounted, Promised;
    AccountedShape(base, links, h, done);
    h', found, double, done' := h, false, None, done;
    if o in ignore || o in h.unknown || o in h.played {
      return;
    }
    match judge(o, h)
    case NotPlayable =>
    case Doubles(existing, id) => double := Some((existing, id));
    case Unidentified =>
      h', done' := PlayLinks(base, links, h, o, done);
      found := true;
    case Identified(id) =>
      if id.suit < |h.stacks| && id.rank == h.stacks[id.suit] + 1 {
        KnownPlayed(base, links, h, o, id, done);
        h' := h.(stacks := h.stacks[id.suit := id.rank], elim := h.elim + {id}, played := h.played + {o});
        found := true;
      }
  }

  /** The pass would still play this card. */
  predicate Playable(judge: Judge, ignore: set<Order>, h: Hypo, o: Order) {
    && o !in ignore && o !in h.unknown && o !in h.played
    && match judge(o, h)
       case NotPlayable => false
       case Doubles(_, _) => false
       case Unidentified => true
       case Identified(id) => id.suit < |h.stacks| && id.rank == h.stacks[id.suit] + 1
  }

  /** What a computation of the hypothetical stacks promises. */
  ghost predicate Computed(base: seq<nat>, links: seq<Link>, judge: Judge, cards: seq<Order>, ignore: set<Order>, h: Hypo) {
    && (exists done :: Accounted(base, links, h, done))
    && (forall o | o in h.played :: o in cards && o !in ignore)
    && (forall o | o in cards :: !Playable(judge, ignore, h, o))
  }

  /** Every card that doubles a play when nothing more can be played is recorded, and only cards that doubled one on the way. */
  ghost predicate Recorded(judge: Judge, cards: seq<Order>, ignore: set<Order>, h: Hypo, doubles: seq<(Order, Id, Order)>) {
    && AllDoubles(judge, cards, ignore, h, doubles)
    && forall d | d in doubles :: Doubled(judge, cards, ignore, h, d)
  }

  ghost predicate AllDoubles(judge: Judge, cards: seq<Order>, ignore: set<Order>, h: Hypo, doubles: seq<(Order, Id, Order)>) {
    forall o | o in cards && DoubledPlay(judge, ignore, h, o).Some? ::
      (DoubledPlay(judge, ignore, h, o).value.0, DoubledPlay(judge, ignore, h, o).value.1, o) in doubles
  }

  ghost predicate Doubled(judge: Judge, cards: seq<Order>, ignore: set<Order>, h: Hypo, d: (Order, Id, Order)) {
    d.2 in cards && exists h0: Hypo :: h0.played <= h.played && DoubledPlay(judge, ignore, h0, d.2) == Some((d.0, d.1))
  }

  lemma PlayedFew(played: set<Order>, cards: seq<Order>)
    requires forall o | o in played :: o in cards
    ensures |played| <= |set o: Order | o in cards|
  {
    assert played <= set o: Order | o in cards;
    SubsetCardinality(played, set o: Order | o in cards);
  }

  ghost predicate PlaysFrom(h: Hypo, cards: seq<Order>, ignore: set<Order>) {
    forall o | o in h.played :: o in cards && o !in ignore
  }

  ghost predicate AllDoubled(judge: Judge, cards: seq<Order>, ignore: set<Order>, h: Hypo, doubles: seq<(Order, Id, Order)>) {
    forall d | d in doubles :: Doubled(judge, cards, ignore, h, d)
  }

  lemma OneMoreDouble(judge: Judge, cards: seq<Order>, ignore: set<Order>, h0: Hypo, h: Hypo, doubles: seq<(Order, Id, Order)>, o: Order)
    requires AllDoubled(judge, cards, ignore, h0, doubles) && h0.played <= h.played && o in cards
    ensures AllDoubled(judge, cards, ignore, h, doubles)
    ensures var d := DoubledPlay(judge, ignore, h0, o); d.Some? ==>
              AllDoubled(judge, cards, ignore, h, doubles + [(d.value.0, d.value.1, o)])
  {
    hide DoubledPlay;
    forall d | d in doubles
      ensures Doubled(judge, cards, ignore, h, d)
    {
      assert Doubled(judge, cards, ignore, h0, d);
    }
  }

  /** One sweep over the hands. */
  method Sweep(base: seq<nat>, links: seq<Link>, judge: Judge, cards: seq<Order>, ignore: set<Order>, h0: Hypo,
               doubles0: seq<(Order, Id, Order)>, ghost done0: set<nat>)
      returns (h: Hypo, foundNew: bool, doubles: seq<(Order, Id, Order)>, ghost done: set<nat>)
    requires (forall l | l in links :: l.target.suit < |base|) && Accounted(base, links, h0, done0) && PlaysFrom(h0, cards, ignore)
    requires AllDoubled(judge, cards, ignore, h0, doubles0)
    ensures Accounted(base, links, h, done) && PlaysFrom(h, cards, ignore) && AllDoubled(judge, cards, ignore, h, doubles)
    ensures if foundNew then |h.played| > |h0.played|
            else h == h0 && (forall o | o in cards :: !Playable(judge, ignore, h, o)) && AllDoubles(judge, cards, ignore, h, doubles)
  {
    h, foundNew, doubles, done := h0, false, doubles0, done0;
    hide Accounted, Playable, DoubledPlay, AllDoubled;
    for i := 0 to |cards|
      invariant Accounted(base, links, h, done) && PlaysFrom(h, cards, ignore) && AllDoubled(judge, cards, ignore, h, doubles)
      invariant h0.played <= h.played && (foundNew ==> |h.played| > |h0.played|)
      invariant !foundNew ==> h == h0 && forall j | 0 <= j < i :: !Playable(judge, ignore, h, cards[j])
      invariant !foundNew ==> AllDoubles(judge, cards[..i], ignore, h, doubles)
    {
      var found, double;
      ghost var before := h;
      h, found, double, done := Visit(base, links, judge, ignore, h, cards[i], done);
      OneMoreDouble(judge, cards, ignore, before, h, doubles, cards[i]);
      if found {
        AddOne(before.played, cards[i]);
        SubsetCardinality(h0.played, before.played);
        foundNew := true;
      }
      if double.Some? {
        doubles := doubles + [(double.value.0, double.value.1, cards[i])];
      }
      assert cards[..i + 1] == cards[..i] + [cards[i]];
    }
    assert cards[..|cards|] == cards;
  }

  /** The loop that plays everything it can: every sweep that finds a card plays one that was not played before. */
  method Pass(base: seq<nat>, links: seq<Link>, judge: Judge, cards: seq<Order>, ignore: set<Order>)
      returns (h: Hypo, doubles: seq<(Order, Id, Order)>)
    requires forall l | l in links :: l.target.suit < |base|
    ensures Computed(base, links, judge, cards, ignore, h) && Recorded(judge, cards, ignore, h, doubles)
  {
    h := Hypo(base, {}, {}, {});
    doubles := [];
    ghost var done: set<nat> := {};
    assert Accounted(base, links, h, done);
    hide Accounted, Playable, DoubledPlay, AllDoubles;
    var foundNew := true;
    while foundNew
      invariant Accounted(base, links, h, done) && PlaysFrom(h, cards, ignore) && AllDoubled(judge, cards, ignore, h, doubles)
      invariant !foundNew ==> (forall o | o in cards :: !Playable(judge, ignore, h, o)) && AllDoubles(judge, cards, ignore, h, doubles)
      decreases |set o: Order | o in cards| - |h.played|, if foundNew then 1 else 0
    {
      PlayedFew(h.played, cards);
      h, foundNew, doubles, done := Sweep(base, links, judge, cards, ignore, h, doubles, done);
      PlayedFew(h.played, cards);
    }
  }

  /** `duplicated_plays`, one list of orders per identity. */
  function Group(doubles: seq<(Order, Id, Order)>, id: Id): seq<Order> {
    if doubles == [] then []
    else
      var front := Group(doubles[..|doubles| - 1], id);
      var last := doubles[|doubles| - 1];
      if last.1 != id then front
      else (if front == [] then [last.0] else front) + [last.2]
  }

  /** The identities of the lists, in the order in which they were first added. */
  function Keys(doubles: seq<(Order, Id, Order)>): seq<Id> {
    if doubles == [] then []
    else
      var front := Keys(doubles[..|doubles| - 1]);
      if doubles[|doubles| - 1].1 in front then front else front + [doubles[|doubles| - 1].1]
  }

  /** The doubles of one identity, in the order in which they were found. */
  ghost function Of(doubles: seq<(Order, Id, Order)>, id: Id): seq<(Order, Id, Order)> {
    if doubles == [] then []
    else if doubles[0].1 == id then [doubles[0]] + Of(doubles[1..], id)
    else Of(doubles[1..], id)
  }

  lemma {:induction false} OfLast(doubles: seq<(Order, Id, Order)>, id: Id)
    requires doubles != []
    ensures var (front, last) := (doubles[..|doubles| - 1], doubles[|doubles| - 1]);
            Of(doubles, id) == Of(front, id) + if last.1 == id then [last] else []
  {
    if |doubles| > 1 {
      OfLast(doubles[1..], id);
      assert doubles[1..][..|doubles| - 2] == doubles[..|doubles| - 1][1..];
    }
  }

  /** The list of an identity: the play that was doubled first, and then every card that doubled one. */
  lemma {:induction false} GroupIs(doubles: seq<(Order, Id, Order)>, id: Id)
    ensures var of := Of(doubles, id);
            && |Group(doubles, id)| == (if of == [] then 0 else |of| + 1)
            && (of != [] ==> Group(doubles, id)[0] == of[0].0)
            && forall k | 0 <= k < |of| :: Group(doubles, id)[k + 1] == of[k].2
  {
    if doubles != [] {
      GroupIs(doubles[..|doubles| - 1], id);
      OfLast(doubles, id);
    }
  }

  /** There is one list for every identity that was doubled. */
  lemma {:induction false} KeysAre(doubles: seq<(Order, Id, Order)>)
    ensures forall id :: id in Keys(doubles) <==> Of(doubles, id) != []
    ensures forall i, j | 0 <= i < j < |Keys(doubles)| :: Keys(doubles)[i] != Keys(doubles)[j]
  {
    if doubles != [] {
      KeysAre(doubles[..|doubles| - 1]);
      forall id
        ensures id in Keys(doubles) <==> Of(doubles, id) != []
      {
        OfLast(doubles, id);
      }
    }
  }

  /** A retry: the plays that it ignored, and what it computed. */
  datatype Retry = Retry(ignored: set<Order>, hypo: Hypo)

  function OrderSet(orders: seq<Order>): set<Order> { set o | o in orders }

  /** The retry ignores the first n plays that were doubled as id. */
  predicate Ignores(t: Retry, doubles: seq<(Order, Id, Order)>, id: Id, n: nat) {
    1 <= n <= |Group(doubles, id)| && t.ignored == OrderSet(Group(doubles, id)[..n])
  }

  ghost predicate Retried(tried: seq<Retry>, doubles: seq<(Order, Id, Order)>, id: Id, n: nat) {
    exists t :: t in tried && Ignores(t, doubles, id, n)
  }

  /** For every identity that was doubled and every non-empty beginning of its list there is a retry, and for nothing else. */
  ghost predicate AllRetried(doubles: seq<(Order, Id, Order)>, tried: seq<Retry>) {
    && (forall id, n: nat | id in Keys(doubles) && 1 <= n <= |Group(doubles, id)| :: Retried(tried, doubles, id, n))
    && (forall t | t in tried :: exists id, n :: id in Keys(doubles) && Ignores(t, doubles, id, n))
  }

  /** The earliest of the best: the first computation, or else the first retry, that nothing else exceeds. */
  ghost predicate FirstBest(first: Hypo, tried: seq<Retry>, best: Hypo) {
    && (forall t | t in tried :: t.hypo.Score() <= best.Score()) && first.Score() <= best.Score()
    && (best == first
        || exists k :: 0 <= k < |tried| && tried[k].hypo == best && first.Score() < best.Score()
                       && forall j | 0 <= j < k :: tried[j].hypo.Score() < best.Score())
  }

  lemma OneMoreRetry(first: Hypo, tried: seq<Retry>, best: Hypo, t: Retry)
    requires FirstBest(first, tried, best)
    ensures FirstBest(first, tried + [t], if t.hypo.Score() > best.Score() then t.hypo else best)
  {
    hide Hypo.Score;
    var more := tried + [t];
    assert more[|tried|] == t;
    if t.hypo.Score() <= best.Score() && best != first {
      var k :| 0 <= k < |tried| && tried[k].hypo == best && first.Score() < best.Score()
               && forall j | 0 <= j < k :: tried[j].hypo.Score() < best.Score();
      assert more[k] == tried[k] && forall j | 0 <= j < k :: more[j] == tried[j];
    } else if t.hypo.Score() > best.Score() {
      forall j | 0 <= j < |tried|
        ensures more[j].hypo.Score() < t.hypo.Score()
      {
        assert tried[j] in tried;
      }
    }
  }

  /** What has been retried before the list of key number g, and its first i plays. */
  ghost predicate RetriedUpTo(doubles: seq<(Order, Id, Order)>, tried: seq<Retry>, g: nat, i: nat) {
    && g <= |Keys(doubles)|
    && (forall k, n: nat | 0 <= k < |Keys(doubles)| && 1 <= n <= |Group(doubles, Keys(doubles)[k])| && (k < g || (k == g && n <= i)) ::
          Retried(tried, doubles, Keys(doubles)[k], n))
    && (forall t | t in tried :: exists id, n :: id in Keys(doubles) && Ignores(t, doubles, id, n))
  }

  lemma RetriedMore(doubles: seq<(Order, Id, Order)>, tried: seq<Retry>, g: nat, i: nat, t: Retry)
    requires RetriedUpTo(doubles, tried, g, i) && g < |Keys(doubles)| && Ignores(t, doubles, Keys(doubles)[g], i + 1)
    ensures RetriedUpTo(doubles, tried + [t], g, i + 1)
  {
    var more, keys := tried + [t], Keys(doubles);
    hide Ignores, Keys;
    assert t in more && keys[g] in keys;
    forall k, n: nat | 0 <= k < |keys| && 1 <= n <= |Group(doubles, keys[k])| && (k < g || (k == g && n <= i + 1))
      ensures Retried(more, doubles, keys[k], n)
    {
      if k == g && n == i + 1 {
        assert Ignores(t, doubles, keys[k], n);
      } else {
        assert Retried(tried, doubles, keys[k], n);
        var x :| x in tried && Ignores(x, doubles, keys[k], n);
        assert x in more;
      }
    }
    forall x | x in more
      ensures exists id, n :: id in keys && Ignores(x, doubles, id, n)
    {
      if x == t { assert Ignores(t, doubles, keys[g], i + 1); }
    }
  }

  lemma AllOfKey(doubles: seq<(Order, Id, Order)>, tried: seq<Retry>, g: nat)
    requires g < |Keys(doubles)| && RetriedUpTo(doubles, tried, g, |Group(doubles, Keys(doubles)[g])|)
    ensures RetriedUpTo(doubles, tried, g + 1, 0)
  {
    hide Ignores, Keys, Group, Retried;
  }

  lemma AllKeysRetried(doubles: seq<(Order, Id, Order)>, tried: seq<Retry>)
    requires RetriedUpTo(doubles, tried, |Keys(doubles)|, 0)
    ensures AllRetried(doubles, tried)
  {
    hide Ignores, Keys, Group, Retried;
    forall id, n: nat | id in Keys(doubles) && 1 <= n <= |Group(doubles, id)|
      ensures Retried(tried, doubles, id, n)
    {
      var k :| 0 <= k < |Keys(doubles)| && Keys(doubles)[k] == id;
    }
  }

  /** `update_hypo_stacks`: the best of the first computation and the retries, which ignore some of the doubled plays. */
  method UpdateHypoStacks(playStacks: seq<nat>, links: seq<Link>, judge: Judge, cards: seq<Order>, ignoreOrders: Option<set<Order>>)
      returns (best: Hypo, first: Hypo, ghost doubles: seq<(Order, Id, Order)>, ghost tried: seq<Retry>)
    requires forall l | l in links :: l.target.suit < |playStacks|
    ensures Computed(playStacks, links, judge, cards, if ignoreOrders.Some? then ignoreOrders.value else {}, first)
    ensures exists ignore :: Computed(playStacks, links, judge, cards, ignore, best)
    ensures first.Score() <= best.Score() && (ignoreOrders.Some? ==> best == first)
    ensures Recorded(judge, cards, if ignoreOrders.Some? then ignoreOrders.value else {}, first, doubles)
    ensures if ignoreOrders.Some? then tried == [] else AllRetried(doubles, tried)
    ensures forall t | t in tried :: Computed(playStacks, links, judge, cards, t.ignored, t.hypo)
    ensures FirstBest(first, tried, best)
  {
    var found;
    first, found := Pass(playStacks, links, judge, cards, if ignoreOrders.Some? then ignoreOrders.value else {});
    best := first;
    doubles, tried := found, [];
    if ignoreOrders.Some? {
      return;
    }
    var keys := Keys(found);
    hide Computed, Hypo.Score, Recorded, FirstBest, RetriedUpTo, AllRetried, Ignores, Keys, Group;
    assert FirstBest(first, [], first) && RetriedUpTo(doubles, [], 0, 0) by { NothingRetried(first, doubles); }
    for g := 0 to |keys|
      invariant forall t | t in tried :: Computed(playStacks, links, judge, cards, t.ignored, t.hypo)
      invariant FirstBest(first, tried, best) && RetriedUpTo(doubles, tried, g, 0)
    {
      var orders := Group(found, keys[g]);
      var ignore := if orders == [] then {} else {orders[0]};
      for i := 0 to |orders|
        invariant forall t | t in tried :: Computed(playStacks, links, judge, cards, t.ignored, t.hypo)
        invariant FirstBest(first, tried, best) && RetriedUpTo(doubles, tried, g, i)
        invariant ignore == OrderSet(orders[..i]) + if orders == [] then {} else {orders[0]}
      {
        ignore := ignore + {orders[i]};
        Beginning(found, keys[g], i, ignore);
        var new', more := Pass(playStacks, links, judge, cards, ignore);
        OneMoreRetry(first, tried, best, Retry(ignore, new'));
        RetriedMore(doubles, tried, g, i, Retry(ignore, new'));
        tried := tried + [Retry(ignore, new')];
        if new'.Score() > best.Score() {
          best := new';
        }
      }
      AllOfKey(doubles, tried, g);
    }
    AllKeysRetried(doubles, tried);
  }

  lemma NothingRetried(first: Hypo, doubles: seq<(Order, Id, Order)>)
    ensures FirstBest(first, [], first) && RetriedUpTo(doubles, [], 0, 0)
  {
  }

  lemma Beginning(doubles: seq<(Order, Id, Order)>, id: Id, i: nat, ignore: set<Order>)
    requires i < |Group(doubles, id)|
    requires ignore == OrderSet(Group(doubles, id)[..i]) + {Group(doubles, id)[0]} + {Group(doubles, id)[i]}
    ensures ignore == OrderSet(Group(doubles, id)[..i + 1])
    ensures forall h :: Ignores(Retry(ignore, h), doubles, id, i + 1)
  {
    var orders := Group(doubles, id);
    hide Group;
    assert orders[..i + 1] == orders[..i] + [orders[i]];
    assert i > 0 ==> orders[..i][0] == orders[0];
  }

  /** The stacks never drop, and they grow by the known plays and the links fulfilled, each counted once. */
  lemma StacksAccount(base: seq<nat>, links: seq<Link>, judge: Judge, cards: seq<Order>, ignore: set<Order>, h: Hypo) returns (done: set<nat>)
    requires Computed(base, links, judge, cards, ignore, h)
    ensures |h.stacks| == |base| && forall s | 0 <= s < |base| :: base[s] <= h.stacks[s]
    ensures Sum(h.stacks) == Sum(base) + |h.played - h.unknown| + |done|
    ensures forall k | k in done :: k < |links| && Fulfilled(links[k], h.unknown)
    ensures forall id: Id :: id in h.elim <==> id.suit < |base| && base[id.suit] < id.rank <= h.stacks[id.suit]
  {
    done :| Accounted(base, links, h, done);
  }
}
