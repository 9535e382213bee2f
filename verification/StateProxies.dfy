// The traps, `produce`, `finalize` and the patches of src/StateProxy.js.
module StateProxies {
  import opened DraftModel
  import opened DraftSteps
  import opened DraftResult

  function Lookup(f: Fields, k: Key): Value {
    if k in f then f[k] else Undefined
  }

  // ----- What a read returns -----

  lemma ReadCopy(w: World, base: map<Node, Fields>, mem: Memory, p: StateProxy, k: Key)
    requires p in w.drafts && Modified(w, p) && CopyOk(w, base, mem, p) && p.base in base
    ensures HasCopy(w, p) && Base(p.base) in mem
    ensures var v := Lookup(CopyOf(w, p), k);
            Means(w, v, Property(mem[Base(p.base)], k))
            && if v != Lookup(base[p.base], k) || !v.Ref? then Handle(w, v) else k in base[p.base] && CopyOf(w, p)[k] == base[p.base][k]
  {
  }

  lemma UntouchedDraft(w: World, base: map<Node, Fields>, root: Node, mem: Memory, p: StateProxy)
    requires Inv(w, base, root, mem, {}) && p in w.drafts && !Modified(w, p)
    ensures p.base in base && Base(p.base) in mem && mem[Base(p.base)] == LiftFields(base[p.base])
  {
    hide CopyOk, PropsOk, CreatedOk, Registered, ProxiesOk;
    assert DraftOk(w, base, root, mem, {}, p);
    assert !Touched(w, p.base);
  }

  lemma ReadProxy(w: World, base: map<Node, Fields>, root: Node, mem: Memory, p: StateProxy, k: Key)
    requires Inv(w, base, root, mem, {}) && p in w.drafts && !Modified(w, p) && k in w.drafts[p].proxies
    ensures var q := w.drafts[p].proxies[k];
            q in w.drafts && p.base in base && k in base[p.base] && base[p.base][k] == Ref(q.base)
  {
    assert DraftOk(w, base, root, mem, {}, p);
    hide CopyOk, PropsOk, CreatedOk, Registered;
    assert DraftOk(w, base, root, mem, {}, w.drafts[p].proxies[k]);
  }

  lemma BaseValue(base: map<Node, Fields>, root: Node, b: Node, k: Key)
    requires BaseOk(base, root) && b in base && k in base[b]
    ensures !base[b][k].Draft? && (base[b][k].Ref? ==> base[b][k].node in base)
  {
  }

  /** A write that stores what is there already changes nothing, and any other write to an unmodified draft does. */
  lemma SameValue(w: World, base: map<Node, Fields>, root: Node, mem: Memory, p: StateProxy, k: Key, v: Value, r: RVal)
    requires Inv(w, base, root, mem, {}) && p in w.drafts && !Modified(w, p) && Handle(w, v) && Means(w, v, r)
    ensures p.base in base && Base(p.base) in mem
    ensures var current := if k in w.drafts[p].proxies then Draft(w.drafts[p].proxies[k]) else Lookup(base[p.base], k);
            current == v <==> Property(mem[Base(p.base)], k) == r
  {
    hide Inv;
    UntouchedDraft(w, base, root, mem, p);
    if k in w.drafts[p].proxies {
      ReadProxy(w, base, root, mem, p, k);
    }
    if v.Draft? && k in base[p.base] && base[p.base][k] == Ref(v.proxy.base) {
      ChildKnown(w, base, root, mem, p, k, v.proxy);
    }
    CreatedApart(w, base, root, mem);
    if k in base[p.base] { BaseValue(base, root, p.base, k); }
  }

  lemma CreatedApart(w: World, base: map<Node, Fields>, root: Node, mem: Memory)
    requires Inv(w, base, root, mem, {})
    ensures BaseOk(base, root) && forall n | n in w.created :: n !in base
  {
    hide DraftOk, UntouchedOk;
  }

  /** The only draft of the object under key k is the one p knows. */
  lemma ChildKnown(w: World, base: map<Node, Fields>, root: Node, mem: Memory, p: StateProxy, k: Key, q: StateProxy)
    requires Inv(w, base, root, mem, {}) && p in w.drafts && !Modified(w, p) && q in w.drafts
    requires p.base in base && k in base[p.base] && base[p.base][k] == Ref(q.base)
    ensures k in w.drafts[p].proxies && w.drafts[p].proxies[k] == q
  {
    assert DraftOk(w, base, root, mem, {}, q);
    hide CopyOk, PropsOk, CreatedOk, UntouchedOk;
  }

  lemma {:induction false} ChainModified(w: World, base: map<Node, Fields>, root: Node, mem: Memory, pending: set<StateProxy>, p: StateProxy, o: StateProxy)
    requires Inv(w, base, root, mem, pending) && p in w.drafts && Modified(w, p) && o in Chain(p)
    requires forall x | x in pending :: x.depth > p.depth
    ensures Modified(w, o)
    decreases p.depth
  {
    assert DraftOk(w, base, root, mem, pending, p);
    if o != p {
      ChainModified(w, base, root, mem, pending, p.parent, o);
    }
  }

  lemma InvLinks(w: World, base: map<Node, Fields>, root: Node, mem: Memory, pending: set<StateProxy>)
    requires Inv(w, base, root, mem, pending)
    ensures LinksOk(w, base, root)
  {
    forall p | p in w.drafts
      ensures LinkOk(w, base, root, p)
    {
      assert DraftOk(w, base, root, mem, pending, p);
    }
  }

  /** A new draft of an object that was never touched. */
  lemma MarksWithChild(w: World, w': World, base: map<Node, Fields>, root: Node, written: set<Node>, q: StateProxy)
    requires LinksOk(w, base, root) && MarksOk(w, base, written) && q !in w.drafts && !Touched(w, q.base)
    requires w'.drafts.Keys == w.drafts.Keys + {q} && !Modified(w', q) && forall o | o in w.drafts :: Modified(w', o) == Modified(w, o)
    ensures MarksOk(w', base, written)
  {
    if WrittenBelow(base, written, q.base) {
      WrittenIsTouched(w, base, root, written, q.base);
    }
    hide LinksOk, WrittenBelow;
    forall n | n in written
      ensures Touched(w', n)
    {
      var o :| o in w.drafts && Modified(w, o) && o.base == n;
      assert Modified(w', o);
    }
  }

  lemma NeverTouched(w: World, base: map<Node, Fields>, root: Node, mem: Memory, p: StateProxy, k: Key, q: StateProxy)
    requires Inv(w, base, root, mem, {}) && FreshChild(w, base, p, k, q)
    requires if Modified(w, p) then HasCopy(w, p) && k in CopyOf(w, p) && CopyOf(w, p)[k] == Ref(q.base) else k !in w.drafts[p].proxies
    ensures !Touched(w, q.base)
  {
    hide DraftOk, CreatedOk, UntouchedOk, Unique;
    forall o | o in w.drafts
      ensures o.base != q.base
    {
      NoDraftYet(w, base, root, mem, p, k, q, o);
    }
  }

  ghost predicate NewDraft(w: World, base: map<Node, Fields>, p: StateProxy, k: Key, q: StateProxy) {
    && p in w.drafts && q !in w.drafts && q.parent == p && q.ownKey == k && q.depth == p.depth + 1
    && p.base in base && k in base[p.base] && base[p.base][k] == Ref(q.base)
  }

  lemma NewIsFresh(w: World, base: map<Node, Fields>, root: Node, mem: Memory, p: StateProxy, k: Key, q: StateProxy)
    requires Inv(w, base, root, mem, {}) && NewDraft(w, base, p, k, q)
    ensures FreshChild(w, base, p, k, q)
  {
    BaseValue(base, root, p.base, k);
    hide DraftOk, UntouchedOk, CreatedOk;
  }

  lemma LateRead(w: World, base: map<Node, Fields>, root: Node, mem: Memory, written: set<Node>, p: StateProxy, k: Key, q: StateProxy)
    requires Inv(w, base, root, mem, {}) && MarksOk(w, base, written) && NewDraft(w, base, p, k, q)
    requires HasCopy(w, p) && k in CopyOf(w, p) && CopyOf(w, p)[k] == Ref(q.base)
    ensures Inv(AddLateChild(w, p, k, q), base, root, mem, {}) && MarksOk(AddLateChild(w, p, k, q), base, written)
    ensures Handle(AddLateChild(w, p, k, q), Draft(q)) && Means(AddLateChild(w, p, k, q), Draft(q), RObj(Base(q.base)))
  {
    hide Inv, MarksOk, LinksOk, Touched;
    NewIsFresh(w, base, root, mem, p, k, q);
    hide FreshChild, NewDraft;
    InvLinks(w, base, root, mem, {});
    NeverTouched(w, base, root, mem, p, k, q);
    LateChildKeeps(w, base, root, mem, p, k, q);
    MarksWithChild(w, AddLateChild(w, p, k, q), base, root, written, q);
  }

  lemma EarlyRead(w: World, base: map<Node, Fields>, root: Node, mem: Memory, written: set<Node>, p: StateProxy, k: Key, q: StateProxy)
    requires Inv(w, base, root, mem, {}) && MarksOk(w, base, written) && NewDraft(w, base, p, k, q)
    requires !Modified(w, p) && k !in w.drafts[p].proxies
    ensures Inv(AddEarlyChild(w, p, k, q), base, root, mem, {}) && MarksOk(AddEarlyChild(w, p, k, q), base, written)
    ensures Handle(AddEarlyChild(w, p, k, q), Draft(q)) && Means(AddEarlyChild(w, p, k, q), Draft(q), RObj(Base(q.base)))
  {
    hide Inv, MarksOk, LinksOk, Touched;
    NewIsFresh(w, base, root, mem, p, k, q);
    hide FreshChild, NewDraft;
    InvLinks(w, base, root, mem, {});
    NeverTouched(w, base, root, mem, p, k, q);
    EarlyChildKeeps(w, base, root, mem, p, k, q);
    MarksWithChild(w, AddEarlyChild(w, p, k, q), base, root, written, q);
  }

  /** What reading an unmodified draft returns, if no new draft is made. */
  lemma ReadEarly(w: World, base: map<Node, Fields>, root: Node, mem: Memory, p: StateProxy, k: Key)
    requires Inv(w, base, root, mem, {}) && p in w.drafts && !Modified(w, p)
    ensures p.base in base && Base(p.base) in mem
    ensures var r := Property(mem[Base(p.base)], k);
            if k in w.drafts[p].proxies then Handle(w, Draft(w.drafts[p].proxies[k])) && Means(w, Draft(w.drafts[p].proxies[k]), r)
            else if Lookup(base[p.base], k).Ref? then r == RObj(Base(base[p.base][k].node))
            else Handle(w, Lookup(base[p.base], k)) && Means(w, Lookup(base[p.base], k), r)
  {
    UntouchedDraft(w, base, root, mem, p);
    if k in w.drafts[p].proxies {
      ReadProxy(w, base, root, mem, p, k);
    }
    if k in base[p.base] { BaseValue(base, root, p.base, k); }
    hide Inv;
  }

  /** What reading a modified draft returns, if no new draft is made. */
  lemma ReadLate(w: World, base: map<Node, Fields>, root: Node, mem: Memory, p: StateProxy, k: Key)
    requires Inv(w, base, root, mem, {}) && p in w.drafts && Modified(w, p)
    ensures HasCopy(w, p) && p.base in base && Base(p.base) in mem
    ensures var (r, v) := (Property(mem[Base(p.base)], k), Lookup(CopyOf(w, p), k));
            if v != Lookup(base[p.base], k) || !v.Ref? then Handle(w, v) && Means(w, v, r)
            else k in base[p.base] && k in CopyOf(w, p) && r == RObj(Base(v.node))
  {
    assert DraftOk(w, base, root, mem, {}, p);
    hide Registered, ProxiesOk, PropsOk, Told, UntouchedOk, CreatedOk, SingleDrafts, DistinctCopies;
    ReadCopy(w, base, mem, p, k);
    if k in base[p.base] && base[p.base][k].Ref? { BaseValue(base, root, p.base, k); }
    assert forall n | n in w.created :: n !in base;
  }

  // ----- The list of modified properties -----

  /** Only properties of the copy are listed as modified. */
  ghost predicate Listed(w: World) {
    forall p | p in w.drafts :: w.drafts[p].props <= if HasCopy(w, p) then CopyOf(w, p).Keys else {}
  }

  lemma ListedMark(w: World, base: map<Node, Fields>, p: StateProxy, c: Node)
    requires Listed(w) && Markable(w, base, p, c)
    ensures Listed(MarkOne(w, p, c, base[p.base]))
  {
    var w' := MarkOne(w, p, c, base[p.base]);
    forall o | o in w'.drafts
      ensures w'.drafts[o].props <= if HasCopy(w', o) then CopyOf(w', o).Keys else {}
    {
      if o != p && HasCopy(w', o) { assert CopyOf(w', o) == CopyOf(w, o); }
    }
  }

  /** The property under which a draft hangs is in its parent's copy. */
  lemma OwnKeyThere(w: World, base: map<Node, Fields>, root: Node, mem: Memory, pending: set<StateProxy>, q: StateProxy)
    requires Inv(w, base, root, mem, pending) && Listed(w) && q in w.drafts && q.parent != null && Modified(w, q.parent)
    ensures HasCopy(w, q.parent) && q.ownKey in CopyOf(w, q.parent)
  {
    assert DraftOk(w, base, root, mem, pending, q) && DraftOk(w, base, root, mem, pending, q.parent);
    hide Registered, ProxiesOk, UntouchedOk, CreatedOk, Unique, Told;
  }

  lemma ListedProp(w: World, p: StateProxy, k: Key)
    requires Listed(w) && p in w.drafts && HasCopy(w, p) && k in CopyOf(w, p)
    ensures Listed(AddProp(w, p, k))
  {
    var w' := AddProp(w, p, k);
    forall o | o in w'.drafts
      ensures w'.drafts[o].props <= if HasCopy(w', o) then CopyOf(w', o).Keys else {}
    {
      if HasCopy(w', o) { assert CopyOf(w', o) == CopyOf(w, o); }
    }
  }

  lemma ListedStored(w: World, p: StateProxy, k: Key, v: Value)
    requires Listed(w) && p in w.drafts && HasCopy(w, p)
    ensures Listed(Stored(w, p, k, v))
  {
    var w' := Stored(w, p, k, v);
    forall o | o in w'.drafts
      ensures w'.drafts[o].props <= if HasCopy(w', o) then CopyOf(w', o).Keys else {}
    {
    }
  }

  lemma ListedChild(w: World, p: StateProxy, k: Key, q: StateProxy)
    requires Listed(w) && p in w.drafts && q !in w.drafts
    ensures Listed(AddEarlyChild(w, p, k, q)) && (HasCopy(w, p) ==> Listed(AddLateChild(w, p, k, q)))
  {
  }

  // ----- Marking -----

  /** Exactly the chain of p was marked. */
  ghost predicate Marked(w: World, w': World, p: StateProxy) {
    && w'.drafts.Keys == w.drafts.Keys && w'.created == w.created
    && forall o | o in w.drafts :: (Modified(w', o) <==> Modified(w, o) || o in Chain(p)) && w'.drafts[o].finalized == w.drafts[o].finalized
  }

  lemma AlreadyMarked(w: World, base: map<Node, Fields>, root: Node, mem: Memory, pending: set<StateProxy>, p: StateProxy)
    requires Inv(w, base, root, mem, pending) && p in w.drafts && Modified(w, p) && forall x | x in pending :: x.depth > p.depth
    ensures Marked(w, w, p)
  {
    forall o | o in Chain(p)
      ensures Modified(w, o)
    {
      ChainModified(w, base, root, mem, pending, p, o);
    }
  }

  lemma MarkPossible(w: World, base: map<Node, Fields>, root: Node, mem: Memory, pending: set<StateProxy>, p: StateProxy, c: Node)
    requires Inv(w, base, root, mem, pending) && p in w.drafts && !Modified(w, p) && c !in base && c !in w.nodes
    ensures Markable(w, base, p, c)
  {
    assert DraftOk(w, base, root, mem, pending, p);
    hide Registered, ProxiesOk, PropsOk, LinkOk, Told, UntouchedOk, Unique;
    forall o | o in w.drafts && Modified(w, o)
      ensures w.drafts[o].copy in w.nodes
    {
      assert DraftOk(w, base, root, mem, pending, o);
    }
    forall n | n in w.created
      ensures n in w.nodes
    {
      var i :| 0 <= i < |w.created| && w.created[i] == n;
      assert CreatedOk(w, mem, i);
    }
  }

  lemma LinkKnown(w: World, base: map<Node, Fields>, root: Node, mem: Memory, pending: set<StateProxy>, p: StateProxy)
    requires Inv(w, base, root, mem, pending) && p in w.drafts
    ensures LinkOk(w, base, root, p)
  {
    assert DraftOk(w, base, root, mem, pending, p);
  }

  lemma RootMarked(w: World, w1: World, base: map<Node, Fields>, p: StateProxy)
    requires p in w.drafts && p.parent == null && p.base in base && exists c :: c in w1.nodes && w1 == MarkOne(w, p, c, base[p.base])
    ensures Marked(w, w1, p)
  {
  }

  lemma ParentMarked(w: World, w1: World, w2: World, base: map<Node, Fields>, root: Node, p: StateProxy)
    requires p in w.drafts && LinkOk(w, base, root, p) && p.parent != null
    requires exists c :: c in w1.nodes && w1 == MarkOne(w, p, c, base[p.base])
    requires Marked(w1, w2, p.parent)
    ensures p in w2.drafts && p.parent in w2.drafts && Modified(w2, p.parent) && Marked(w, AddProp(w2, p.parent, p.ownKey), p)
  {
    InChain(p.parent);
  }

  /** The parent was marked and lists the property. */
  lemma TellParent(w: World, w1: World, w2: World, base: map<Node, Fields>, root: Node, mem: Memory, pending: set<StateProxy>, p: StateProxy)
    requires p in w.drafts && LinkOk(w, base, root, p) && p.parent != null
    requires exists c :: c in w1.nodes && w1 == MarkOne(w, p, c, base[p.base])
    requires Marked(w1, w2, p.parent) && Inv(w2, base, root, mem, pending + {p}) && Listed(w2)
    ensures p.parent in w2.drafts
    ensures var w3 := AddProp(w2, p.parent, p.ownKey); Marked(w, w3, p) && Inv(w3, base, root, mem, pending) && Listed(w3)
  {
    ParentMarked(w, w1, w2, base, root, p);
    hide Inv, Listed, Marked, MarkOne, LinkOk;
    OwnKeyThere(w2, base, root, mem, pending + {p}, p);
    ListedProp(w2, p.parent, p.ownKey);
    PropKeeps(w2, base, root, mem, pending, p);
  }

  // ----- Writing -----

  /** The world after the property was listed and set. */
  function Stored(w: World, p: StateProxy, k: Key, v: Value): World
    requires HasCopy(w, p)
  {
    Assign(AddProp(w, p, k), p, k, v)
  }

  lemma StoreKeeps(w: World, base: map<Node, Fields>, root: Node, mem: Memory, p: StateProxy, k: Key, v: Value, r: RVal)
    requires Inv(w, base, root, mem, {}) && p in w.drafts && HasCopy(w, p) && Handle(w, v) && Means(w, v, r)
    ensures Base(p.base) in mem && Inv(Stored(w, p, k, v), base, root, SetProperty(mem, Base(p.base), k, r), {})
  {
    ListKeeps(w, base, root, mem, p, k);
    hide Inv;
    AssignKeeps(AddProp(w, p, k), base, root, mem, p, k, v, r);
  }

  lemma StoreMarks(w0: World, w: World, base: map<Node, Fields>, root: Node, mem: Memory, written: set<Node>, p: StateProxy, k: Key, v: Value, same: bool)
    requires Inv(w0, base, root, mem, {}) && MarksOk(w0, base, written) && p in w0.drafts && Marked(w0, w, p) && HasCopy(w, p)
    requires same ==> Modified(w0, p)
    ensures MarksOk(Stored(w, p, k, v), base, if same then written else written + {p.base})
  {
    hide Inv, LinksOk, MarksOk, Chain, WrittenBelow;
    InvLinks(w0, base, root, mem, {});
    AlreadyMarkedIf(w0, base, root, mem, p);
    if same {
      SameMarks(w0, Stored(w, p, k, v), base, written);
    } else {
      MarksAfter(w0, Stored(w, p, k, v), base, root, written, p);
    }
  }

  lemma AlreadyMarkedIf(w: World, base: map<Node, Fields>, root: Node, mem: Memory, p: StateProxy)
    requires Inv(w, base, root, mem, {}) && p in w.drafts
    ensures Modified(w, p) ==> forall o | o in w.drafts && o in Chain(p) :: Modified(w, o)
  {
    if Modified(w, p) { AlreadyMarked(w, base, root, mem, {}, p); }
  }

  lemma SameMarks(w0: World, w: World, base: map<Node, Fields>, written: set<Node>)
    requires MarksOk(w0, base, written) && w.drafts.Keys == w0.drafts.Keys
    requires forall o | o in w0.drafts :: Modified(w, o) == Modified(w0, o)
    ensures MarksOk(w, base, written)
  {
    hide WrittenBelow;
    forall n | n in written
      ensures Touched(w, n)
    {
      var o :| o in w0.drafts && Modified(w0, o) && o.base == n;
      assert Modified(w, o);
    }
  }

  lemma MarkedCopy(w: World, base: map<Node, Fields>, root: Node, mem: Memory, p: StateProxy)
    requires Inv(w, base, root, mem, {}) && p in w.drafts && Modified(w, p)
    ensures HasCopy(w, p) && w.drafts[p].copy !in base && p.base in base && Base(p.base) in mem
  {
    assert DraftOk(w, base, root, mem, {}, p);
  }

  lemma MarkedSelf(w: World, w': World, p: StateProxy)
    requires Marked(w, w', p) && p in w.drafts
    ensures p in w'.drafts && Modified(w', p)
  {
    InChain(p);
  }

  lemma HandleStays(w0: World, w: World, p: StateProxy, v: Value, r: RVal)
    requires Marked(w0, w, p) && Handle(w0, v) && Means(w0, v, r)
    ensures Handle(w, v) && Means(w, v, r)
  {
  }

  lemma SameProperty(mem: Memory, x: Name, k: Key, r: RVal)
    requires x in mem && Property(mem[x], k) == r && (r != RUndefined || k in mem[x])
    ensures SetProperty(mem, x, k, r) == mem
  {
    assert mem[x][k := r] == mem[x];
  }

  lemma NotSettled(w: World, image: Image, v: Value, r: RVal)
    requires v.Draft? && (Settled(w, image, v, r) || Open(w, v, r))
    ensures v.proxy in w.drafts && r == RObj(Base(v.proxy.base))
  {
  }

  lemma DoneFlagged(w: World, mem: Memory, image: Image, p: StateProxy)
    requires Done(w, mem, image, p)
    ensures p in w.drafts && Modified(w, p) && w.drafts[p].finalized
  {
  }

  lemma BaseNotOpen(base: map<Node, Fields>, root: Node, w: World, p: StateProxy, k: Key, v: Value, r: RVal)
    requires BaseOk(base, root) && p.base in base && v == Lookup(base[p.base], k)
    ensures !Open(w, v, r)
  {
    if k in base[p.base] { BaseValue(base, root, p.base, k); }
  }

  /** The copy of a flagged draft stays as it is while others are finalized. */
  lemma StepKeepsFlagged(w: World, w': World, mem: Memory, image: Image, p: StateProxy)
    requires FinalStep(w, w', mem, image, {}) && p in w.drafts && w.drafts[p].finalized && HasCopy(w, p)
    ensures HasCopy(w', p) && w'.drafts[p] == w.drafts[p] && CopyOf(w', p) == CopyOf(w, p)
    ensures forall o | o in w.drafts :: o in w'.drafts && (w.drafts[o].finalized ==> w'.drafts[o].finalized)
  {
    assert DraftStep(w, w', mem, image, {}, p);
    forall o | o in w.drafts
      ensures o in w'.drafts && (w.drafts[o].finalized ==> w'.drafts[o].finalized)
    {
      assert DraftStep(w, w', mem, image, {}, o);
    }
  }

  ghost predicate SettledBut(w: World, mem: Memory, image: Image, p: StateProxy, keys: set<Key>) {
    && HasCopy(w, p) && Base(p.base) in mem && CopyOf(w, p).Keys == mem[Base(p.base)].Keys
    && forall k | k in CopyOf(w, p) && k !in keys :: Settled(w, image, CopyOf(w, p)[k], mem[Base(p.base)][k])
  }

  lemma KeySettled(w0: World, w: World, w': World, mem: Memory, image: Image, p: StateProxy, keys: set<Key>, k: Key)
    requires FinalStep(w0, w, mem, image, {p}) && FinalStep(w, w', mem, image, {p}) && SettledBut(w, mem, image, p, keys)
    requires HasCopy(w', p) && k in CopyOf(w, p) && k in CopyOf(w', p) && CopyOf(w', p) == CopyOf(w, p)[k := CopyOf(w', p)[k]]
    requires Settled(w', image, CopyOf(w', p)[k], mem[Base(p.base)][k])
    ensures FinalStep(w0, w', mem, image, {p}) && SettledBut(w', mem, image, p, keys - {k})
  {
    FinalStepTransitive(w0, w, w', mem, image, {p});
    hide Settled, FinalStep;
    forall l | l in CopyOf(w', p) && l !in keys - {k}
      ensures Settled(w', image, CopyOf(w', p)[l], mem[Base(p.base)][l])
    {
      if l != k { SettledStays(w, w', mem, image, {p}, CopyOf(w, p)[l], mem[Base(p.base)][l]); }
    }
  }

  lemma AllSettled(w: World, mem: Memory, image: Image, p: StateProxy)
    requires AllFinalizing(w, mem, image) && p in w.drafts && w.drafts[p].finalized && SettledBut(w, mem, image, p, {})
    ensures Done(w, mem, image, p)
  {
    MakeDone(w, mem, image, p);
  }

  // ----- Registers -----

  /** The registers of the producer hold what those of the plain run hold. */
  ghost predicate RegsOk(w: World, regs: map<Reg, Value>, plain: map<Reg, RVal>) {
    regs.Keys == plain.Keys && forall r | r in regs :: Handle(w, regs[r]) && Means(w, regs[r], plain[r])
  }

  lemma RegsStay(w: World, w': World, regs: map<Reg, Value>, plain: map<Reg, RVal>)
    requires RegsOk(w, regs, plain) && w.drafts.Keys <= w'.drafts.Keys && w.created <= w'.created
    ensures RegsOk(w', regs, plain)
  {
    forall r | r in regs
      ensures Handle(w', regs[r]) && Means(w', regs[r], plain[r])
    {
      assert forall n | n in w.created :: n in w'.created;
    }
  }

  lemma RegsSet(w: World, regs: map<Reg, Value>, plain: map<Reg, RVal>, dst: Reg, v: Value, r: RVal)
    requires RegsOk(w, regs, plain) && Handle(w, v) && Means(w, v, r)
    ensures RegsOk(w, regs[dst := v], plain[dst := r])
  {
  }

  /** A register that holds an object: a draft, or an object made by the producer. */
  lemma ObjectInRegister(w: World, v: Value, r: RVal)
    requires Handle(w, v) && Means(w, v, r) && r.RObj?
    ensures v.Draft? || v.Ref?
    ensures v.Draft? ==> v.proxy in w.drafts && r.name == Base(v.proxy.base)
    ensures v.Ref? ==> r.name.New? && r.name.index < |w.created| && v.node == w.created[r.name.index]
  {
  }

  lemma RegisterHolds(w: World, regs: map<Reg, Value>, plain: map<Reg, RVal>, r: Reg)
    requires RegsOk(w, regs, plain) && r in plain && plain[r].RObj?
    ensures r in regs && (regs[r].Draft? || regs[r].Ref?)
    ensures regs[r].Draft? ==> regs[r].proxy in w.drafts && plain[r].name == Base(regs[r].proxy.base)
    ensures regs[r].Ref? ==> plain[r].name.New? && plain[r].name.index < |w.created| && regs[r].node == w.created[plain[r].name.index]
  {
    ObjectInRegister(w, regs[r], plain[r]);
  }

  lemma OwnFields(w: World, base: map<Node, Fields>, root: Node, mem: Memory, i: nat)
    requires Inv(w, base, root, mem, {}) && i < |w.created|
    ensures CreatedOk(w, mem, i)
  {
  }

  lemma ReadOwn(w: World, mem: Memory, i: nat, k: Key)
    requires i < |w.created| && CreatedOk(w, mem, i)
    ensures var v := Lookup(w.nodes[w.created[i]], k); Handle(w, v) && Means(w, v, Property(mem[New(i)], k))
  {
  }

  lemma WriteOwn(w: World, base: map<Node, Fields>, root: Node, mem: Memory, written: set<Node>, i: nat, k: Key, v: Value, r: RVal)
    requires Inv(w, base, root, mem, {}) && MarksOk(w, base, written) && Listed(w) && i < |w.created|
    requires Handle(w, v) && Means(w, v, r) && (r.RObj? ==> r.name.New?)
    ensures w.created[i] in w.nodes && New(i) in mem
    ensures var w' := AssignOwn(w, w.created[i], k, v);
            Inv(w', base, root, SetProperty(mem, New(i), k, r), {}) && MarksOk(w', base, written) && Listed(w')
  {
    assert OwnValue(w, v);
    hide Handle, Means, OwnValue;
    AssignOwnKeeps(w, base, root, mem, i, k, v, r);
    var w' := AssignOwn(w, w.created[i], k, v);
    ListedOwn(w, base, root, mem, i, k, v);
    hide Inv, MarksOk, Listed;
    SameMarks(w, w', base, written);
  }

  lemma ListedOwn(w: World, base: map<Node, Fields>, root: Node, mem: Memory, i: nat, k: Key, v: Value)
    requires Inv(w, base, root, mem, {}) && Listed(w) && i < |w.created| && w.created[i] in w.nodes
    ensures Listed(AssignOwn(w, w.created[i], k, v))
  {
    var w' := AssignOwn(w, w.created[i], k, v);
    forall o | o in w'.drafts
      ensures w'.drafts[o].props <= if HasCopy(w', o) then CopyOf(w', o).Keys else {}
    {
    }
  }

  lemma AddOwn(w: World, base: map<Node, Fields>, root: Node, mem: Memory, written: set<Node>, n: Node)
    requires Inv(w, base, root, mem, {}) && MarksOk(w, base, written) && Listed(w) && n !in base && n !in w.nodes
    ensures var w' := AddObject(w, n);
            Inv(w', base, root, mem[New(|w.created|) := map[]], {}) && MarksOk(w', base, written) && Listed(w')
    ensures Handle(AddObject(w, n), Ref(n)) && Means(AddObject(w, n), Ref(n), RObj(New(|w.created|)))
  {
    CreatedInNodes(w, base, root, mem);
    hide Inv;
    AddObjectKeeps(w, base, root, mem, n);
    var w' := AddObject(w, n);
    ListedAdd(w, n);
    hide MarksOk, Listed;
    SameMarks(w, w', base, written);
  }

  lemma CreatedInNodes(w: World, base: map<Node, Fields>, root: Node, mem: Memory)
    requires Inv(w, base, root, mem, {})
    ensures forall n | n in w.created :: n in w.nodes
  {
    forall n | n in w.created
      ensures n in w.nodes
    {
      var i :| 0 <= i < |w.created| && w.created[i] == n;
      assert CreatedOk(w, mem, i);
    }
  }

  lemma ListedAdd(w: World, n: Node)
    requires Listed(w) && n !in w.nodes
    ensures Listed(AddObject(w, n))
  {
    var w' := AddObject(w, n);
    forall o | o in w'.drafts
      ensures w'.drafts[o].props <= if HasCopy(w', o) then CopyOf(w', o).Keys else {}
    {
      if HasCopy(w, o) { assert CopyOf(w', o) == CopyOf(w, o); }
    }
  }

  lemma StartInv(base: map<Node, Fields>, root: Node, p: StateProxy)
    requires BaseOk(base, root) && p.base == root && p.parent == null
    ensures var w := World(map[p := NEW_DRAFT], map[], []);
            Inv(w, base, root, DeepCopy(base, root).mem, {}) && MarksOk(w, base, {}) && Listed(w)
  {
    var w := World(map[p := NEW_DRAFT], map[], []);
    assert DraftOk(w, base, root, DeepCopy(base, root).mem, {}, p);
    assert !WrittenBelow(base, {}, p.base);
  }

  lemma StartRegs(base: map<Node, Fields>, root: Node, p: StateProxy)
    requires p.base == root
    ensures DeepCopy(base, root).created == 0 && DeepCopy(base, root).written == {}
    ensures RegsOk(World(map[p := NEW_DRAFT], map[], []), map[0 := Draft(p)], DeepCopy(base, root).regs)
  {
  }

  // ----- Patches -----

  /** `{ op, path: [key], value }`; add stands for the two operations. */
  datatype Patch = Patch(add: bool, key: Key, value: Value)

  function Patched(f: Fields, patches: seq<Patch>): Fields
    decreases |patches|
  {
    if patches == [] then f else Patched(f[patches[0].key := patches[0].value], patches[1..])
  }

  /** The patches set each key to what g has there. */
  ghost predicate PatchesTo(patches: seq<Patch>, g: Fields, keys: set<Key>) {
    && (forall i | 0 <= i < |patches| :: patches[i].key in keys && patches[i].key in g && patches[i].value == g[patches[i].key])
    && (forall k | k in keys :: exists i :: 0 <= i < |patches| && patches[i].key == k)
  }

  lemma {:induction false} PatchedValue(f: Fields, patches: seq<Patch>, g: Fields, k: Key)
    requires forall i | 0 <= i < |patches| :: patches[i].key in g && patches[i].value == g[patches[i].key]
    ensures var h := Patched(f, patches);
            if exists i :: 0 <= i < |patches| && patches[i].key == k then k in h && k in g && h[k] == g[k]
            else (k in h <==> k in f) && (k in f ==> h[k] == f[k])
    decreases |patches|
  {
    if patches != [] {
      PatchedValue(f[patches[0].key := patches[0].value], patches[1..], g, k);
      if i :| 0 <= i < |patches| && patches[i].key == k && i > 0 {
        assert patches[1..][i - 1].key == k;
      }
      if i :| 0 <= i < |patches[1..]| && patches[1..][i].key == k {
        assert patches[i + 1].key == k;
      }
    }
  }

  /** Replaying the patches on the base gives the result, if nothing else changed. */
  lemma PatchesComplete(f: Fields, g: Fields, patches: seq<Patch>, keys: set<Key>)
    requires PatchesTo(patches, g, keys)
    requires forall k | k !in keys :: (k in g <==> k in f) && (k in g ==> g[k] == f[k])
    ensures Patched(f, patches) == g
  {
    forall k
      ensures (k in Patched(f, patches) <==> k in g) && (k in g ==> Patched(f, patches)[k] == g[k])
    {
      PatchedValue(f, patches, g, k);
    }
  }

  /** `applyPatches`, for one-level paths. */
  method ApplyPatches(target: Node, patches: seq<Patch>)
    modifies target
    ensures target.fields == Patched(old(target.fields), patches)
  {
    ghost var f := target.fields;
    for i := 0 to |patches|
      invariant Patched(target.fields, patches[i..]) == Patched(f, patches)
    {
      assert patches[i..][0] == patches[i] && patches[i..][1..] == patches[i + 1..];
      target.fields := target.fields[patches[i].key := patches[i].value];
    }
  }

  /** `generateObjectPatches` */
  method GeneratePatches(modifiedProps: set<Key>, baseValue: Node, resultValue: Node) returns (patches: seq<Patch>)
    requires modifiedProps <= resultValue.fields.Keys
    ensures PatchesTo(patches, resultValue.fields, modifiedProps)
    ensures forall i | 0 <= i < |patches| :: patches[i].add <==> patches[i].key !in baseValue.fields
  {
    patches := [];
    var keys := modifiedProps;
    while keys != {}
      invariant keys <= modifiedProps
      invariant forall i | 0 <= i < |patches| ::
                  patches[i].key in modifiedProps && patches[i].value == resultValue.fields[patches[i].key]
                  && (patches[i].add <==> patches[i].key !in baseValue.fields)
      invariant forall k | k in modifiedProps && k !in keys :: exists i :: 0 <= i < |patches| && patches[i].key == k
      decreases keys
    {
      var key :| key in keys;
      ghost var before := patches;
      patches := patches + [Patch(key !in baseValue.fields, key, resultValue.fields[key])];
      assert patches[|before|].key == key;
      forall k | k in modifiedProps && k !in keys - {key} && k != key
        ensures exists i :: 0 <= i < |patches| && patches[i].key == k
      {
        var i :| 0 <= i < |before| && before[i].key == k;
        assert patches[i].key == k;
      }
      keys := keys - {key};
    }
  }

  // ----- The outcome -----

  /** The objects reachable from the result are the plain run's, under a renaming of objects. */
  ghost predicate IsImage(mem: Memory, image: Image, live: set<Name>, start: Name, result: Node)
    reads image.Values
  {
    && start in live && start in image && image[start] == result
    && (forall x | x in live :: x in image && Closed(mem, live, x) && image[x].fields == FinalFields(image, mem[x]))
    && (forall x, y | x in live && y in live && image[x] == image[y] :: x == y)
  }

  lemma AllComplete(w0: World, w: World, base: map<Node, Fields>, root: Node, mem: Memory, image: Image)
    requires Finished(w0, w, base, root, mem, image)
    ensures forall x | x in Live(w, base) :: Complete(w, base, mem, image, Live(w, base), x)
  {
    hide Live, Complete, Finished;
    forall x | x in Live(w, base)
      ensures Complete(w, base, mem, image, Live(w, base), x)
    {
      LiveComplete(w0, w, base, root, mem, image, x);
    }
  }

  lemma AllDifferent(w0: World, w: World, base: map<Node, Fields>, root: Node, mem: Memory, image: Image)
    requires Finished(w0, w, base, root, mem, image)
    ensures forall x | x in Live(w, base) :: x in image
    ensures forall x, y | x in Live(w, base) && y in Live(w, base) && image[x] == image[y] :: x == y
  {
    StartedSo(w0, w, base, root, mem, image);
    hide Live, Complete, Finished, Inv, ImageOk;
    forall x | x in Live(w, base)
      ensures x in image
    {
      LiveComplete(w0, w, base, root, mem, image, x);
      CompleteIn(w, base, mem, image, Live(w, base), x);
    }
    forall x, y | x in Live(w, base) && y in Live(w, base) && image[x] == image[y]
      ensures x == y
    {
      ImageInjective(w0, base, root, mem, image, x, y);
    }
  }

  lemma SharedUnlessWritten(w0: World, w: World, base: map<Node, Fields>, root: Node, mem: Memory, image: Image, written: set<Node>)
    requires Finished(w0, w, base, root, mem, image) && MarksOk(w0, base, written)
    ensures forall b | b in base :: Base(b) in image && (image[Base(b)] == b <==> !WrittenBelow(base, written, b))
  {
    StartedSo(w0, w, base, root, mem, image);
    InvLinks(w0, base, root, mem, {});
    hide Finished, Inv, ImageOk, MarksOk, LinksOk, WrittenBelow;
    forall b | b in base
      ensures Base(b) in image && (image[Base(b)] == b <==> !WrittenBelow(base, written, b))
    {
      CopiedIffWritten(w0, base, root, mem, image, written, b);
    }
  }

  lemma CompleteIn(w: World, base: map<Node, Fields>, mem: Memory, image: Image, live: set<Name>, x: Name)
    requires Complete(w, base, mem, image, live, x)
    ensures x in image
  {
  }

  lemma RootLive(w0: World, w: World, base: map<Node, Fields>, root: Node, mem: Memory, image: Image)
    requires Finished(w0, w, base, root, mem, image)
    requires Touched(w0, root) ==> exists p :: p in w.drafts && p.base == root && w.drafts[p].finalized
    ensures Base(root) in Live(w, base)
  {
    LiveGrows(w0, w, base, mem, image);
    hide DraftOk, ImageOk, FinalStep;
  }

  lemma StepProps(w: World, w': World, mem: Memory, image: Image, p: StateProxy)
    requires FinalStep(w, w', mem, image, {}) && p in w.drafts
    ensures p in w'.drafts && w'.drafts[p] == w.drafts[p].(finalized := w'.drafts[p].finalized)
  {
    assert DraftStep(w, w', mem, image, {}, p);
  }

  /** The listed properties are properties of the result. */
  lemma ListedThere(w0: World, w: World, base: map<Node, Fields>, root: Node, mem: Memory, image: Image, p: StateProxy)
    requires Finished(w0, w, base, root, mem, image) && Listed(w0) && p in w0.drafts && p in w.drafts && Modified(w, p) && w.drafts[p].finalized
    ensures HasCopy(w, p) && w0.drafts[p].props <= CopyOf(w, p).Keys && p.base in base && Modified(w0, p)
  {
    StepProps(w0, w, mem, image, p);
    FlaggedDone(w0, w, base, root, mem, image, p);
    DraftBase(w0, base, root, mem, p);
    hide Inv, ImageOk, FinalStep;
  }

  lemma StartImage(w: World, base: map<Node, Fields>, root: Node, mem: Memory) returns (image: Image)
    requires Inv(w, base, root, mem, {})
    ensures ImageOk(w, base, image) && AllFinalizing(w, mem, image) && BaseOk(base, root) && forall p | p in w.drafts :: p.base in base
  {
    forall p | p in w.drafts
      ensures p.base in base && (Modified(w, p) ==> w.drafts[p].copy != null)
    {
      assert DraftOk(w, base, root, mem, {}, p);
      hide Registered, ProxiesOk, PropsOk, Told, UntouchedOk, CreatedOk;
    }
    hide DraftOk, UntouchedOk, CreatedOk;
    image := MakeImage(w, base);
    AllStart(w, base, root, mem, image);
  }

  /** The root draft is finalized if it was modified, and its image is the result. */
  lemma RootResult(w0: World, w: World, base: map<Node, Fields>, root: Node, mem: Memory, image: Image, p: StateProxy, res: Value)
    requires Finished(w0, w, base, root, mem, image) && p in w0.drafts && p.base == root
    requires Settled(w, image, res, RObj(Base(root)))
    ensures Base(root) in image && res == Ref(image[Base(root)]) && p in w.drafts
    ensures Modified(w0, p) ==> w.drafts[p].finalized && w.drafts[p].copy == image[Base(root)] && Modified(w, p)
    ensures !Modified(w0, p) ==> image[Base(root)] == root && !Modified(w, p)
    ensures Touched(w0, root) ==> Modified(w0, p)
  {
    assert DraftStep(w0, w, mem, image, {}, p);
    hide DraftOk, UntouchedOk, CreatedOk, BaseOk, DistinctCopies;
  }

  // ----- produce -----

  /** One call of `produce`: the drafts and objects made so far, and the values the producer holds. */
  class Producer {
    ghost const base: map<Node, Fields>
    ghost const root: Node
    ghost var drafts: set<StateProxy>
    ghost var nodes: set<Node>
    ghost var created: seq<Node>
    ghost var plain: Plain
    var regs: map<Reg, Value>

    ghost function W(): World
      reads `drafts, `nodes, `created, drafts, nodes
    {
      World(map p | p in drafts :: State(p), map n | n in nodes :: n.fields, created)
    }

    /** The base is as it was and is not among the objects that may be changed. */
    ghost predicate BaseKept()
      reads `nodes, base.Keys
    {
      nodes !! base.Keys && forall b | b in base :: b.fields == base[b]
    }

    constructor (rootNode: Node, ghost tree: map<Node, Fields>)
      requires BaseOk(tree, rootNode) && forall b | b in tree :: b.fields == tree[b]
      ensures root == rootNode && base == tree
      ensures drafts == {} && nodes == {} && created == [] && plain == DeepCopy(tree, rootNode) && regs == map[]
    {
      root, base := rootNode, tree;
      drafts, nodes, created, plain := {}, {}, [], DeepCopy(tree, rootNode);
      regs := map[];
    }

    /** The drafts show the deep copy. */
    ghost predicate Ready(mem: Memory, written: set<Node>)
      reads `drafts, `nodes, `created, drafts, nodes, base.Keys
    {
      && BaseKept() && Inv(W(), base, root, mem, {}) && MarksOk(W(), base, written) && Listed(W())
      && forall o | o in drafts :: !o.finalized
    }

    /** `createProxy(base)`: register 0 holds the root draft. */
    method Begin(rootNode: Node) returns (rootDraft: StateProxy)
      requires rootNode == root && BaseOk(base, root) && (forall b | b in base :: b.fields == base[b])
      requires drafts == {} && nodes == {} && created == [] && plain == DeepCopy(base, root) && regs == map[]
      modifies this
      ensures Valid() && plain == old(plain) && drafts == {rootDraft} && fresh(rootDraft) && nodes == {}
      ensures rootDraft.base == root
    {
      hide Inv, MarksOk, Listed, BaseOk, DeepCopy;
      rootDraft := new StateProxy(rootNode, null, "");
      drafts := {rootDraft};
      regs := map[0 := Draft(rootDraft)];
      assert W() == World(map[rootDraft := NEW_DRAFT], map[], []);
      StartInv(base, root, rootDraft);
      StartRegs(base, root, rootDraft);
      hide W, RegsOk;
    }

    /** The get trap. */
    method Get(p: StateProxy, k: Key, ghost mem: Memory, ghost written: set<Node>) returns (v: Value)
      requires Ready(mem, written) && p in drafts
      modifies this`drafts, drafts, nodes
      ensures Ready(mem, written) && old(drafts) <= drafts && fresh(drafts - old(drafts)) && created == old(created)
      ensures Base(p.base) in mem && Handle(W(), v) && Means(W(), v, Property(mem[Base(p.base)], k))
    {
      if p.modified {
        v := GetModified(p, k, mem, written);
      } else {
        v := GetUnmodified(p, k, mem, written);
      }
    }

    method GetModified(p: StateProxy, k: Key, ghost mem: Memory, ghost written: set<Node>) returns (v: Value)
      requires Ready(mem, written) && p in drafts && p.modified
      modifies this`drafts, drafts, nodes
      ensures Ready(mem, written) && old(drafts) <= drafts && fresh(drafts - old(drafts)) && created == old(created)
      ensures Base(p.base) in mem && Handle(W(), v) && Means(W(), v, Property(mem[Base(p.base)], k))
    {
      hide Inv, MarksOk, Means, Handle, Listed;
      ghost var w := W();
      assert w.drafts[p] == State(p);
      ReadLate(w, base, root, mem, p, k);
      assert p.base.fields == base[p.base] && p.copy.fields == CopyOf(w, p);
      var value := Lookup(p.copy.fields, k);
      if value != Lookup(p.base.fields, k) || !value.Ref? {
        hide *;
        return value;
      }
      v := LateChild(p, k, value.node, mem, written);
      hide *;
    }

    method GetUnmodified(p: StateProxy, k: Key, ghost mem: Memory, ghost written: set<Node>) returns (v: Value)
      requires Ready(mem, written) && p in drafts && !p.modified
      modifies this`drafts, drafts, nodes
      ensures Ready(mem, written) && old(drafts) <= drafts && fresh(drafts - old(drafts)) && created == old(created)
      ensures Base(p.base) in mem && Handle(W(), v) && Means(W(), v, Property(mem[Base(p.base)], k))
    {
      hide Inv, MarksOk, Means, Handle, Listed;
      ghost var w := W();
      assert w.drafts[p] == State(p);
      ReadEarly(w, base, root, mem, p, k);
      assert p.base.fields == base[p.base];
      if k in p.proxies {
        hide *;
        return Draft(p.proxies[k]);
      }
      var value := Lookup(p.base.fields, k);
      if !value.Ref? {
        hide *;
        return value;
      }
      v := EarlyChild(p, k, value.node, mem, written);
      hide *;
    }

    /** `createProxy` */
    method CreateProxy(p: StateProxy, k: Key, n: Node) returns (q: StateProxy)
      requires BaseKept()
      modifies `drafts
      ensures BaseKept() && fresh(q) && q.base == n && q.parent == p && q.ownKey == k && q.depth == p.depth + 1
      ensures drafts == old(drafts) + {q} && State(q) == NEW_DRAFT
      ensures W() == old(W()).(drafts := old(W()).drafts[q := NEW_DRAFT])
    {
      q := new StateProxy(n, p, k);
      drafts := drafts + {q};
      hide BaseKept;
      assert W().drafts == old(W()).drafts[q := NEW_DRAFT];
      assert W().nodes == old(W()).nodes;
    }

    /** `state.copy[prop] = createProxy(...)` */
    method LateChild(p: StateProxy, k: Key, n: Node, ghost mem: Memory, ghost written: set<Node>) returns (v: Value)
      requires Ready(mem, written) && p in drafts && p.modified && HasCopy(W(), p)
      requires k in CopyOf(W(), p) && CopyOf(W(), p)[k] == Ref(n) && p.base in base && k in base[p.base] && base[p.base][k] == Ref(n)
      modifies this`drafts, nodes
      ensures Ready(mem, written) && old(drafts) <= drafts && fresh(drafts - old(drafts)) && created == old(created)
      ensures Handle(W(), v) && Means(W(), v, RObj(Base(n)))
    {
      ghost var w := W();
      hide Inv, MarksOk, Handle, Means, Listed, AddLateChild;
      var q := PutLate(p, k, n);
      ListedChild(w, p, k, q);
      LateRead(w, base, root, mem, written, p, k, q);
      return Draft(q);
    }

    method PutLate(p: StateProxy, k: Key, n: Node) returns (q: StateProxy)
      requires BaseKept() && p in drafts && p.modified && p.copy != null && p.copy in nodes
      modifies this`drafts, p.copy
      ensures BaseKept() && fresh(q) && q.base == n && q.parent == p && q.ownKey == k && q.depth == p.depth + 1 && !q.finalized
      ensures drafts == old(drafts) + {q} && created == old(created) && p.finalized == old(p.finalized)
      ensures W() == AddLateChild(old(W()), p, k, q)
    {
      q := CreateProxy(p, k, n);
      ghost var w := W();
      p.copy.fields := p.copy.fields[k := Draft(q)];
      hide BaseKept;
      assert W().drafts == w.drafts;
      assert W().nodes == w.nodes[p.copy := p.copy.fields];
    }

    /** `state.proxies[prop] = createProxy(...)` */
    method EarlyChild(p: StateProxy, k: Key, n: Node, ghost mem: Memory, ghost written: set<Node>) returns (v: Value)
      requires Ready(mem, written) && p in drafts && !p.modified
      requires k !in p.proxies && p.base in base && k in base[p.base] && base[p.base][k] == Ref(n)
      modifies this`drafts, p
      ensures Ready(mem, written) && old(drafts) <= drafts && fresh(drafts - old(drafts)) && created == old(created)
      ensures Handle(W(), v) && Means(W(), v, RObj(Base(n)))
    {
      ghost var w := W();
      hide Inv, MarksOk, Handle, Means, Listed, AddEarlyChild;
      var q := PutEarly(p, k, n);
      ListedChild(w, p, k, q);
      EarlyRead(w, base, root, mem, written, p, k, q);
      return Draft(q);
    }

    method PutEarly(p: StateProxy, k: Key, n: Node) returns (q: StateProxy)
      requires BaseKept() && p in drafts && !p.modified
      modifies this`drafts, p
      ensures BaseKept() && fresh(q) && q.base == n && q.parent == p && q.ownKey == k && q.depth == p.depth + 1 && !q.finalized
      ensures drafts == old(drafts) + {q} && created == old(created) && p.finalized == old(p.finalized)
      ensures W() == AddEarlyChild(old(W()), p, k, q)
    {
      q := CreateProxy(p, k, n);
      hide BaseKept;
      PutProxy(p, k, q);
    }

    /** `state.proxies[prop] = ...` */
    method PutProxy(p: StateProxy, k: Key, q: StateProxy)
      requires p in drafts
      modifies p`proxies
      ensures BaseKept() == old(BaseKept())
      ensures W() == old(W()).(drafts := old(W()).drafts[p := old(W()).drafts[p].(proxies := old(W()).drafts[p].proxies[k := q])])
    {
      ghost var w := W();
      p.proxies := p.proxies[k := q];
      assert W().drafts == w.drafts[p := State(p)];
      assert W().nodes == w.nodes;
    }

    /** `this.modified = true`, and the copy: the base's properties with the drafts in place of their objects. */
    method MarkOnly(p: StateProxy, ghost mem: Memory, ghost pending: set<StateProxy>)
      requires BaseKept() && Inv(W(), base, root, mem, pending) && Listed(W()) && p in drafts && !p.modified
      modifies this`nodes, p
      ensures BaseKept() && Inv(W(), base, root, mem, pending + {p}) && Listed(W())
      ensures old(nodes) <= nodes && fresh(nodes - old(nodes)) && p.base in base
      ensures exists c :: c in nodes && W() == MarkOne(old(W()), p, c, base[p.base])
    {
      ghost var w := W();
      hide Inv, MarkOne, Markable, Listed;
      assert w.drafts[p] == State(p) && nodes !! base.Keys;
      LinkKnown(w, base, root, mem, pending, p);
      hide BaseKept;
      var c := PutCopy(p);
      assert c !in base && c !in w.nodes;
      MarkPossible(w, base, root, mem, pending, p, c);
      ListedMark(w, base, p, c);
      MarkKeeps(w, base, root, mem, pending, p, c);
    }

    method PutCopy(p: StateProxy) returns (c: Node)
      requires BaseKept() && p in drafts && !p.modified && p.base in base
      modifies this`nodes, p
      ensures BaseKept() && fresh(c) && nodes == old(nodes) + {c}
      ensures W() == MarkOne(old(W()), p, c, base[p.base])
    {
      c := NewCopy(p);
      ghost var w := W();
      hide BaseKept, Overlay;
      p.modified := true;
      p.copy := c;
      assert W().drafts == w.drafts[p := State(p)];
      assert W().nodes == w.nodes;
    }

    /** `Utils.shallowCopy(this.base)`, then `Object.assign(this.copy, this.proxies)` */
    method NewCopy(p: StateProxy) returns (c: Node)
      requires BaseKept() && p in drafts && p.base in base
      modifies this`nodes
      ensures BaseKept() && fresh(c) && nodes == old(nodes) + {c}
      ensures W() == old(W()).(nodes := old(W()).nodes[c := Overlay(base[p.base], p.proxies)])
    {
      ghost var w := W();
      c := new Node(p.base.fields);
      c.fields := Overlay(c.fields, p.proxies);
      nodes := nodes + {c};
      hide Overlay;
      assert W().drafts == w.drafts;
      assert W().nodes == w.nodes[c := c.fields];
    }

    /** `proxy.modified_props.add(own_key)` */
    method ListProperty(p: StateProxy, k: Key)
      requires p in drafts
      modifies p`modifiedProps
      ensures W() == AddProp(old(W()), p, k) && BaseKept() == old(BaseKept())
    {
      p.modifiedProps := p.modifiedProps + {k};
      assert W().drafts == AddProp(old(W()), p, k).drafts;
      assert W().nodes == AddProp(old(W()), p, k).nodes;
    }

    /** `markChanged`: marks the draft and everything above it, and tells each parent which property changed. */
    method MarkChanged(p: StateProxy, ghost mem: Memory, ghost pending: set<StateProxy>)
      requires BaseKept() && Inv(W(), base, root, mem, pending) && Listed(W()) && p in drafts
      requires forall x | x in pending :: x.depth > p.depth
      modifies this`nodes, drafts
      ensures BaseKept() && Inv(W(), base, root, mem, pending) && Listed(W()) && Marked(old(W()), W(), p)
      ensures old(nodes) <= nodes && fresh(nodes - old(nodes))
      decreases p.depth
    {
      hide Inv, BaseKept, Marked, Listed;
      ghost var w := W();
      assert w.drafts[p] == State(p);
      if p.modified {
        AlreadyMarked(w, base, root, mem, pending, p);
        return;
      }
      LinkKnown(w, base, root, mem, pending, p);
      MarkOnly(p, mem, pending);
      ghost var w1 := W();
      if p.parent == null {
        RootMarked(w, w1, base, p);
        hide *;
        RootTold(w1, base, root, mem, pending, p);
      } else {
        MarkChanged(p.parent, mem, pending + {p});
        assert old(nodes) <= nodes && fresh(nodes - old(nodes));
        ghost var w2 := W();
        TellParent(w, w1, w2, base, root, mem, pending, p);
        hide *;
        ListProperty(p.parent, p.ownKey);
      }
    }

    /** `state.modified_props.add(prop); state.copy[prop] = value` */
    method StoreAt(p: StateProxy, k: Key, v: Value, ghost r: RVal, ghost mem: Memory, ghost written: set<Node>, ghost w: World)
      requires BaseKept() && Inv(W(), base, root, mem, {}) && Listed(W()) && p in drafts && p.modified
      requires Inv(w, base, root, mem, {}) && MarksOk(w, base, written) && p in w.drafts && Marked(w, W(), p)
      requires Handle(w, v) && Means(w, v, r) && forall o | o in w.drafts :: !w.drafts[o].finalized
      requires Base(p.base) in mem && (Property(mem[Base(p.base)], k) == r ==> Modified(w, p))
      modifies p, nodes
      ensures Ready(SetProperty(mem, Base(p.base), k, r), if Property(mem[Base(p.base)], k) == r then written else written + {p.base})
    {
      hide Inv, MarksOk, Handle, Means, Listed;
      ghost var w1 := W();
      assert w1.drafts[p] == State(p);
      MarkedCopy(w1, base, root, mem, p);
      HandleStays(w, w1, p, v, r);
      StoreKeeps(w1, base, root, mem, p, k, v, r);
      StoreMarks(w, w1, base, root, mem, written, p, k, v, Property(mem[Base(p.base)], k) == r);
      ListedStored(w1, p, k, v);
      PutProperty(p, k, v);
      hide Stored, SetProperty, Chain;
      assert forall o | o in drafts :: o in w.drafts && w.drafts[o].finalized == W().drafts[o].finalized;
    }

    method PutProperty(p: StateProxy, k: Key, v: Value)
      requires BaseKept() && p in drafts && p.modified && p.copy != null && p.copy in nodes
      modifies p`modifiedProps, p.copy
      ensures BaseKept() && HasCopy(old(W()), p) && W() == Stored(old(W()), p, k, v)
    {
      ListProperty(p, k);
      ghost var w := W();
      p.copy.fields := p.copy.fields[k := v];
      assert W().drafts == w.drafts;
      assert W().nodes == w.nodes[p.copy := p.copy.fields];
    }

    /** What the set trap does before it stores, unless the value is the one that is there. */
    method MarkToSet(p: StateProxy, ghost mem: Memory)
      requires BaseKept() && Inv(W(), base, root, mem, {}) && Listed(W()) && p in drafts
      modifies this`nodes, drafts
      ensures BaseKept() && Inv(W(), base, root, mem, {}) && Listed(W()) && Marked(old(W()), W(), p) && p.modified
      ensures Base(p.base) in mem
      ensures old(nodes) <= nodes && fresh(nodes - old(nodes))
    {
      hide Inv, Chain, Marked, Listed;
      ghost var w := W();
      if !p.modified {
        MarkChanged(p, mem, {});
        MarkedSelf(w, W(), p);
        assert W().drafts[p] == State(p);
      } else {
        assert w.drafts[p] == State(p);
        AlreadyMarked(w, base, root, mem, {}, p);
      }
      MarkedCopy(W(), base, root, mem, p);
    }

    /** The set trap. */
    method Set(p: StateProxy, k: Key, v: Value, ghost r: RVal, ghost mem: Memory, ghost written: set<Node>)
      requires Ready(mem, written) && p in drafts && Handle(W(), v) && Means(W(), v, r)
      requires r == RUndefined && Base(p.base) in mem ==> k in mem[Base(p.base)]
      modifies this`nodes, drafts, nodes
      ensures Base(p.base) in mem
      ensures Ready(SetProperty(mem, Base(p.base), k, r), if Property(mem[Base(p.base)], k) == r then written else written + {p.base})
      ensures old(nodes) <= nodes && fresh(nodes - old(nodes))
    {
      hide Inv, MarksOk, Handle, Means, SetProperty, Property, Chain, Marked, Listed;
      ghost var w := W();
      assert w.drafts[p] == State(p);
      if !p.modified {
        var same := Unchanged(p, k, v, r, mem, written);
        if same {
          return;
        }
      }
      MarkToSet(p, mem);
      StoreAt(p, k, v, r, mem, written, w);
      hide *;
    }

    /** `(state.proxies[prop] ?? state.base[prop]) === value` */
    method Unchanged(p: StateProxy, k: Key, v: Value, ghost r: RVal, ghost mem: Memory, ghost written: set<Node>) returns (same: bool)
      requires Ready(mem, written) && p in drafts && Handle(W(), v) && Means(W(), v, r) && !p.modified
      requires r == RUndefined && Base(p.base) in mem ==> k in mem[Base(p.base)]
      ensures Base(p.base) in mem && (same <==> Property(mem[Base(p.base)], k) == r)
      ensures same ==> SetProperty(mem, Base(p.base), k, r) == mem
    {
      hide Inv, MarksOk, Handle, Means, SetProperty, Property;
      ghost var w := W();
      assert w.drafts[p] == State(p);
      LinkKnown(w, base, root, mem, {}, p);
      SameValue(w, base, root, mem, p, k, v, r);
      assert p.base.fields == base[p.base];
      same := (if k in p.proxies then Draft(p.proxies[k]) else Lookup(p.base.fields, k)) == v;
      hide *;
      if same { SameProperty(mem, Base(p.base), k, r); }
    }

    // ----- The producer's run -----

    /** The drafts and registers show the plain run. */
    ghost predicate Valid()
      reads this, drafts, nodes, base.Keys
    {
      Ready(plain.mem, plain.written) && plain.created == |created| && RegsOk(W(), regs, plain.regs)
    }

    /** One operation of the producer. */
    method Exec(op: Op)
      requires Valid() && Legal(plain, op)
      modifies this, drafts, nodes
      ensures Valid() && plain == PlainStep(old(plain), op)
      ensures old(drafts) <= drafts && fresh(drafts - old(drafts)) && old(nodes) <= nodes && fresh(nodes - old(nodes))
    {
      hide Valid, Legal, PlainStep;
      match op
      case Read(dst, obj, key) => ExecRead(dst, obj, key);
      case Write(obj, key, val) => ExecWrite(obj, key, val);
      case Literal(dst, x) => ExecLiteral(dst, x);
      case NewObject(dst) => ExecNew(dst);
    }

    method ExecLiteral(dst: Reg, x: int)
      requires Valid() && Legal(plain, Literal(dst, x))
      modifies this`regs, this`plain
      ensures Valid() && plain == PlainStep(old(plain), Literal(dst, x))
    {
      hide Inv, MarksOk, Listed, RegsOk;
      RegsSet(W(), regs, plain.regs, dst, Prim(x), RPrim(x));
      regs := regs[dst := Prim(x)];
      plain := PlainStep(plain, Literal(dst, x));
    }

    /** `producer(rootClone)` */
    method Run(script: seq<Op>)
      requires Valid() && LegalRun(plain, script)
      modifies this, drafts, nodes
      ensures Valid() && plain == PlainRun(old(plain), script)
      ensures old(drafts) <= drafts && fresh(drafts - old(drafts)) && old(nodes) <= nodes && fresh(nodes - old(nodes))
    {
      var i := 0;
      assert script[0..] == script;
      hide Valid, Legal, PlainStep;
      while i < |script|
        invariant 0 <= i <= |script| && Valid() && LegalRun(plain, script[i..])
        invariant PlainRun(plain, script[i..]) == PlainRun(old(plain), script)
        invariant old(drafts) <= drafts && fresh(drafts - old(drafts)) && old(nodes) <= nodes && fresh(nodes - old(nodes))
      {
        assert script[i..][0] == script[i] && script[i..][1..] == script[i + 1..];
        Exec(script[i]);
        i := i + 1;
      }
    }

    method ExecRead(dst: Reg, obj: Reg, key: Key)
      requires Valid() && Legal(plain, Read(dst, obj, key))
      modifies this, drafts, nodes
      ensures Valid() && plain == PlainStep(old(plain), Read(dst, obj, key))
      ensures old(drafts) <= drafts && fresh(drafts - old(drafts)) && nodes == old(nodes)
    {
      hide Handle, Means, Ready, RegsOk, Property, W;
      var v := ReadFrom(obj, key);
      RegsSet(W(), regs, plain.regs, dst, v, Property(plain.mem[plain.regs[obj].name], key));
      regs := regs[dst := v];
      plain := PlainStep(plain, Read(dst, obj, key));
    }

    method ReadFrom(obj: Reg, key: Key) returns (v: Value)
      requires Valid() && Holds(plain, obj)
      modifies `drafts, drafts, nodes
      ensures Valid() && old(drafts) <= drafts && fresh(drafts - old(drafts)) && nodes == old(nodes)
      ensures Handle(W(), v) && Means(W(), v, Property(plain.mem[plain.regs[obj].name], key))
    {
      ghost var w := W();
      RegisterHolds(w, regs, plain.regs, obj);
      hide Handle, Means, MarksOk, Listed, RegsOk, Property, Inv, BaseKept;
      if regs[obj].Draft? {
        hide Ready;
        v := Get(regs[obj].proxy, key, plain.mem, plain.written);
        RegsStay(w, W(), regs, plain.regs);
      } else {
        OwnFields(w, base, root, plain.mem, plain.regs[obj].name.index);
        ReadOwn(w, plain.mem, plain.regs[obj].name.index, key);
        v := Lookup(regs[obj].node.fields, key);
      }
    }

    method ExecWrite(obj: Reg, key: Key, val: Reg)
      requires Valid() && Legal(plain, Write(obj, key, val))
      modifies this, drafts, nodes
      ensures Valid() && plain == PlainStep(old(plain), Write(obj, key, val))
      ensures drafts == old(drafts) && old(nodes) <= nodes && fresh(nodes - old(nodes))
    {
      hide Ready, RegsOk, W;
      WriteTo(obj, key, val);
      plain := PlainStep(plain, Write(obj, key, val));
    }

    method WriteTo(obj: Reg, key: Key, val: Reg)
      requires Valid() && Legal(plain, Write(obj, key, val))
      modifies `nodes, drafts, nodes
      ensures var next := PlainStep(plain, Write(obj, key, val));
              Ready(next.mem, next.written) && RegsOk(W(), regs, next.regs) && next.created == |created|
      ensures old(nodes) <= nodes && fresh(nodes - old(nodes))
    {
      ghost var w := W();
      ghost var r := plain.regs[val];
      assert Handle(w, regs[obj]) && Means(w, regs[obj], plain.regs[obj]) && Handle(w, regs[val]) && Means(w, regs[val], r);
      ObjectInRegister(w, regs[obj], plain.regs[obj]);
      hide Handle, Means, RegsOk, Property, Ready;
      if regs[obj].Draft? {
        Set(regs[obj].proxy, key, regs[val], r, plain.mem, plain.written);
      } else {
        PutOwn(regs[obj].node, plain.regs[obj].name.index, key, regs[val], r);
      }
      RegsStay(w, W(), regs, plain.regs);
      hide W;
    }

    method PutOwn(n: Node, ghost i: nat, k: Key, v: Value, ghost r: RVal)
      requires Ready(plain.mem, plain.written) && i < |created| && n == created[i] && Handle(W(), v) && Means(W(), v, r)
      requires r.RObj? ==> r.name.New?
      modifies nodes
      ensures New(i) in plain.mem && Ready(SetProperty(plain.mem, New(i), k, r), plain.written)
    {
      ghost var w := W();
      hide Inv, Handle, Means, MarksOk, Listed, SetProperty;
      WriteOwn(w, base, root, plain.mem, plain.written, i, k, v, r);
      n.fields := n.fields[k := v];
      assert W().drafts == w.drafts;
      assert W().nodes == w.nodes[n := n.fields];
    }

    method ExecNew(dst: Reg)
      requires Valid()
      modifies this
      ensures Valid() && plain == PlainStep(old(plain), NewObject(dst))
      ensures drafts == old(drafts) && old(nodes) <= nodes && fresh(nodes - old(nodes))
    {
      hide Handle, Means, Ready, RegsOk, W;
      var n := PutObject();
      RegsSet(W(), regs, plain.regs, dst, Ref(n), RObj(New(plain.created)));
      regs := regs[dst := Ref(n)];
      plain := PlainStep(plain, NewObject(dst));
    }

    method PutObject() returns (n: Node)
      requires Ready(plain.mem, plain.written) && RegsOk(W(), regs, plain.regs)
      modifies `nodes, `created
      ensures RegsOk(W(), regs, plain.regs)
      ensures Ready(plain.mem[New(|old(created)|) := map[]], plain.written)
      ensures fresh(n) && nodes == old(nodes) + {n} && created == old(created) + [n]
      ensures Handle(W(), Ref(n)) && Means(W(), Ref(n), RObj(New(|old(created)|)))
    {
      ghost var w := W();
      hide Inv, Handle, Means, MarksOk, Listed, RegsOk;
      n := new Node(map[]);
      AddOwn(w, base, root, plain.mem, plain.written, n);
      nodes := nodes + {n};
      created := created + [n];
      assert W().drafts == w.drafts;
      assert W().nodes == w.nodes[n := map[]];
      RegsStay(w, W(), regs, plain.regs);
    }

    // ----- finalize -----

    /** The drafts that have not been finalized. */
    ghost function Unfinalized(): set<StateProxy>
      reads this, drafts
    {
      set p | p in drafts && !p.finalized
    }

    ghost predicate Finalizable(mem: Memory, image: Image)
      reads `drafts, `nodes, `created, drafts, nodes, base.Keys
    {
      && BaseKept() && BaseOk(base, root) && (forall p | p in drafts :: p.base in base)
      && AllFinalizing(W(), mem, image)
    }

    method FlagDraft(p: StateProxy, ghost mem: Memory, ghost image: Image)
      requires Finalizable(mem, image) && p in drafts
      modifies p`finalized
      ensures p.finalized && W() == Flag(old(W()), p) && Finalizable(mem, image)
    {
      ghost var w := W();
      hide AllFinalizing, BaseOk, BaseKept;
      FlagKeeps(w, mem, image, p);
      p.finalized := true;
      assert W().drafts == Flag(w, p).drafts;
      assert W().nodes == w.nodes;
    }

    /** `copy[key] = ...` while finalizing */
    method PutFinal(p: StateProxy, k: Key, v: Value, ghost mem: Memory, ghost image: Image)
      requires Finalizable(mem, image) && p in drafts && p.modified && p.copy != null && p.copy in nodes && k in p.copy.fields
      requires Base(p.base) in mem && k in mem[Base(p.base)] && Settled(W(), image, v, mem[Base(p.base)][k])
      modifies p.copy
      ensures HasCopy(old(W()), p) && W() == Assign(old(W()), p, k, v) && Finalizable(mem, image)
    {
      ghost var w := W();
      SettleKeeps(w, mem, image, p, k, v);
      hide AllFinalizing, Settled;
      p.copy.fields := p.copy.fields[k := v];
      assert W().drafts == w.drafts;
      assert W().nodes == Assign(w, p, k, v).nodes;
    }

    /** The body of the loop of `finalizeObject`. */
    method FinalizeKey(p: StateProxy, k: Key, value: Value, ghost mem: Memory, ghost image: Image)
      requires Finalizable(mem, image) && p in drafts && p.modified && p.finalized && HasCopy(W(), p)
      requires Base(p.base) in mem && k in mem[Base(p.base)] && k in CopyOf(W(), p) && CopyOf(W(), p)[k] == value
      modifies drafts, nodes
      ensures Finalizable(mem, image) && FinalStep(old(W()), W(), mem, image, {p})
      ensures HasCopy(W(), p) && k in CopyOf(W(), p) && Settled(W(), image, CopyOf(W(), p)[k], mem[Base(p.base)][k])
      ensures CopyOf(W(), p) == CopyOf(old(W()), p)[k := CopyOf(W(), p)[k]]
      ensures p.modified && p.finalized && Unfinalized() <= old(Unfinalized())
      decreases Unfinalized(), 1, 0
    {
      ghost var w := W();
      ghost var r := mem[Base(p.base)][k];
      CopyShape(w, mem, image, p);
      if value == Lookup(p.base.fields, k) {
        BaseNotOpen(base, root, w, p, k, value, r);
        StepRefl(w, mem, image, {p});
        return;
      }
      hide AllFinalizing, Settled, FinalStep;
      var res := Finalize(p.copy.fields[k], r, mem, image);
      ghost var w1 := W();
      StepKeepsFlagged(w, w1, mem, image, p);
      PutFinal(p, k, res, mem, image);
      AssignStep(w1, mem, image, p, k, res);
      StepOpens(w, w1, mem, image, p);
      FinalStepTransitive(w, w1, W(), mem, image, {p});
      SettledStays(w1, W(), mem, image, {p}, res, r);
    }

    /** All properties of p but those under keys have been finalized; those still are what they were. */
    ghost predicate Partly(w: World, p: StateProxy, entries: Fields, keys: set<Key>, unfinalized: set<StateProxy>, mem: Memory, image: Image)
      reads this, drafts, nodes, base.Keys
    {
      && keys <= entries.Keys && Finalizable(mem, image) && FinalStep(w, W(), mem, image, {p})
      && p in drafts && p.modified && p.finalized && Unfinalized() <= unfinalized
      && HasCopy(W(), p) && SettledBut(W(), mem, image, p, keys) && CopyOf(W(), p).Keys == entries.Keys
      && forall k | k in keys :: CopyOf(W(), p)[k] == entries[k]
    }

    method FinalizeEntry(p: StateProxy, k: Key, ghost w: World, entries: Fields, ghost keys: set<Key>, ghost unfinalized: set<StateProxy>,
                         ghost mem: Memory, ghost image: Image)
      requires Partly(w, p, entries, keys, unfinalized, mem, image) && k in keys
      modifies drafts, nodes
      ensures Partly(w, p, entries, keys - {k}, unfinalized, mem, image)
      decreases Unfinalized(), 1, 1
    {
      ghost var before := W();
      assert Base(p.base) in mem && k in mem[Base(p.base)];
      hide SettledBut, Settled, FinalStep, AllFinalizing;
      FinalizeKey(p, k, entries[k], mem, image);
      KeySettled(w, before, W(), mem, image, p, keys, k);
    }

    /** `finalizeObject`: every property that is not the base's own is finalized in place. */
    method FinalizeObject(p: StateProxy, ghost mem: Memory, ghost image: Image)
      requires Finalizable(mem, image) && p in drafts && p.modified && p.finalized
      modifies drafts, nodes
      ensures Finalizable(mem, image) && FinalStep(old(W()), W(), mem, image, {p}) && Done(W(), mem, image, p)
      decreases Unfinalized(), 2, 0
    {
      ghost var w := W();
      hide Settled, FinalStep, AllFinalizing;
      StepRefl(w, mem, image, {p});
      assert w.drafts[p] == State(p);
      CopyShape(w, mem, image, p);
      var entries := p.copy.fields;
      var keys := entries.Keys;
      ghost var unfinalized := Unfinalized();
      while keys != {}
        invariant Partly(w, p, entries, keys, unfinalized, mem, image) && Unfinalized() <= unfinalized
        decreases keys
      {
        var k :| k in keys;
        FinalizeEntry(p, k, w, entries, keys, unfinalized, mem, image);
        keys := keys - {k};
      }
      AllSettled(W(), mem, image, p);
    }

    /** `finalize`: drafts become the objects they stand for. */
    method Finalize(v: Value, ghost r: RVal, ghost mem: Memory, ghost image: Image) returns (res: Value)
      requires Finalizable(mem, image) && (Settled(W(), image, v, r) || Open(W(), v, r))
      modifies drafts, nodes
      ensures Finalizable(mem, image) && FinalStep(old(W()), W(), mem, image, {})
      ensures Settled(W(), image, res, r)
      decreases Unfinalized(), 0, 0
    {
      ghost var w := W();
      StepRefl(w, mem, image, {});
      if !v.Draft? {
        return v;
      }
      var p := v.proxy;
      NotSettled(w, image, v, r);
      assert w.drafts[p] == State(p);
      hide FinalStep, AllFinalizing, Settled;
      if !p.modified || p.finalized {
        DraftSettled(w, mem, image, p);
        return if !p.modified then Ref(p.base) else Ref(p.copy);
      }
      FlagDraft(p, mem, image);
      ghost var w1 := W();
      assert Unfinalized() == old(Unfinalized()) - {p};
      FinalizeObject(p, mem, image);
      CloseStep(w, W(), mem, image, p);
      DoneFlagged(W(), mem, image, p);
      DraftSettled(W(), mem, image, p);
      return Ref(p.copy);
    }

    method FinalizeRoot(rootDraft: StateProxy, ghost mem: Memory, ghost image: Image) returns (result: Node)
      requires Finalizable(mem, image) && Inv(W(), base, root, mem, {}) && ImageOk(W(), base, image)
      requires (forall p | p in drafts :: !p.finalized) && rootDraft in drafts && rootDraft.base == root
      modifies drafts, nodes
      ensures Finalizable(mem, image) && Finished(old(W()), W(), base, root, mem, image)
      ensures Base(root) in image && result == image[Base(root)]
      ensures Touched(old(W()), root) ==> rootDraft.modified
      ensures if rootDraft.modified then rootDraft.finalized && rootDraft.copy == result else result == root
      ensures rootDraft.modified == old(rootDraft.modified) && rootDraft.modifiedProps == old(rootDraft.modifiedProps)
    {
      ghost var w := W();
      hide Inv, ImageOk, AllFinalizing, Settled, FinalStep;
      var res := Finalize(Draft(rootDraft), RObj(Base(root)), mem, image);
      assert w.drafts[rootDraft] == old(State(rootDraft));
      RootResult(w, W(), base, root, mem, image, rootDraft, res);
      assert W().drafts[rootDraft] == State(rootDraft);
      StepProps(w, W(), mem, image, rootDraft);
      result := res.node;
    }

    /** The heap holds what the value-level outcome says. */
    lemma ImageHolds(w: World, rootDraft: StateProxy, mem: Memory, written: set<Node>, image: Image, result: Node)
      requires Finalizable(mem, image) && Finished(w, W(), base, root, mem, image) && MarksOk(w, base, written)
      requires Base(root) in image && result == image[Base(root)] && rootDraft in drafts && rootDraft.base == root
      requires Touched(w, root) ==> rootDraft.finalized
      ensures IsImage(mem, image, Live(W(), base), Base(root), result)
      ensures forall b | b in base :: Base(b) in image && (image[Base(b)] == b <==> !WrittenBelow(base, written, b))
    {
      hide AllFinalizing, Finished, MarksOk, WrittenBelow;
      var w1 := W();
      assert w1.drafts[rootDraft] == State(rootDraft);
      RootLive(w, w1, base, root, mem, image);
      AllComplete(w, w1, base, root, mem, image);
      AllDifferent(w, w1, base, root, mem, image);
      SharedUnlessWritten(w, w1, base, root, mem, image, written);
      hide Live, Closed;
    }

    /** The patches are made from the properties that the root draft lists as modified. */
    method RootPatches(ghost w: World, rootDraft: StateProxy, ghost mem: Memory, ghost image: Image, result: Node) returns (patches: seq<Patch>)
      requires Finalizable(mem, image) && Finished(w, W(), base, root, mem, image) && Listed(w)
      requires rootDraft in drafts && rootDraft in w.drafts && rootDraft.base == root
      requires if rootDraft.modified then rootDraft.finalized && rootDraft.copy == result else result == root
      requires w.drafts[rootDraft].modified == rootDraft.modified && w.drafts[rootDraft].props == rootDraft.modifiedProps
      ensures Patched(root.fields, patches) == result.fields
    {
      if !rootDraft.modified {
        return [];
      }
      ghost var w1 := W();
      assert w1.drafts[rootDraft] == State(rootDraft);
      hide AllFinalizing;
      ListedThere(w, w1, base, root, mem, image, rootDraft);
      forall k | k !in rootDraft.modifiedProps
        ensures (k in result.fields <==> k in root.fields) && (k in result.fields ==> result.fields[k] == root.fields[k])
      {
        UnlistedSame(w, w1, base, root, mem, image, rootDraft, k);
      }
      hide Finished, Finalizable;
      patches := GeneratePatches(rootDraft.modifiedProps, rootDraft.base, result);
      PatchesComplete(root.fields, result.fields, patches, rootDraft.modifiedProps);
    }

    /** `finalize(rootClone, [], patches)` */
    method Finish(rootDraft: StateProxy) returns (result: Node, patches: seq<Patch>, ghost image: Image, ghost live: set<Name>)
      requires Valid() && rootDraft in drafts && rootDraft.base == root
      modifies drafts, nodes
      ensures IsImage(plain.mem, image, live, Base(root), result)
      ensures forall b | b in base :: Base(b) in image && (image[Base(b)] == b <==> !WrittenBelow(base, plain.written, b))
      ensures Patched(root.fields, patches) == result.fields
    {
      ghost var w := W();
      ghost var mem := plain.mem;
      hide Inv, MarksOk, Listed, RegsOk;
      image := StartImage(w, base, root, mem);
      hide BaseKept, ImageOk, AllFinalizing, BaseOk;
      assert w.drafts[rootDraft] == State(rootDraft);
      result := FinalizeRoot(rootDraft, mem, image);
      live := Live(W(), base);
      ImageHolds(w, rootDraft, mem, plain.written, image, result);
      patches := RootPatches(w, rootDraft, mem, image, result);
    }
  }

  /** `produce` on a base that is a tree: the result is the base after the producer's own reads and writes, made
      on a deep copy; the base is not changed, and the patches turn the base's root into the result's. */
  method Produce(rootNode: Node, ghost tree: map<Node, Fields>, script: seq<Op>)
      returns (result: Node, patches: seq<Patch>, ghost image: Image, ghost live: set<Name>)
    requires BaseOk(tree, rootNode) && forall b | b in tree :: b.fields == tree[b]
    requires LegalRun(DeepCopy(tree, rootNode), script)
    ensures var end := PlainRun(DeepCopy(tree, rootNode), script);
            && IsImage(end.mem, image, live, Base(rootNode), result)
            && forall b | b in tree :: Base(b) in image && (image[Base(b)] == b <==> !WrittenBelow(tree, end.written, b))
    ensures Patched(rootNode.fields, patches) == result.fields
  {
    hide *;
    var producer := new Producer(rootNode, tree);
    var rootDraft := producer.Begin(rootNode);
    producer.Run(script);
    result, patches, image, live := producer.Finish(rootDraft);
  }
}
