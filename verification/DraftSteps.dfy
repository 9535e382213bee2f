// Each step of the traps of src/StateProxy.js keeps the relation between drafts and the deep copy.
module DraftSteps {
  import opened DraftModel

  type Fields = map<Key, Value>
  type Memory = map<Name, map<Key, RVal>>

  // ----- The steps -----

  /** A draft of property k, while p is not modified. */
  function AddEarlyChild(w: World, p: StateProxy, k: Key, q: StateProxy): World
    requires p in w.drafts
  {
    w.(drafts := w.drafts[p := w.drafts[p].(proxies := w.drafts[p].proxies[k := q])][q := NEW_DRAFT])
  }

  /** A draft of property k, put into the copy of p. */
  function AddLateChild(w: World, p: StateProxy, k: Key, q: StateProxy): World
    requires HasCopy(w, p)
  {
    w.(drafts := w.drafts[q := NEW_DRAFT], nodes := w.nodes[w.drafts[p].copy := CopyOf(w, p)[k := Draft(q)]])
  }

  /** `Utils.shallowCopy(base)` followed by `Object.assign(copy, proxies)`. */
  function Overlay(f: Fields, proxies: map<Key, StateProxy>): Fields {
    f + map k | k in proxies :: Draft(proxies[k])
  }

  function MarkOne(w: World, p: StateProxy, c: Node, f: Fields): World
    requires p in w.drafts
  {
    World(w.drafts[p := w.drafts[p].(modified := true, copy := c)], w.nodes[c := Overlay(f, w.drafts[p].proxies)], w.created)
  }

  function AddProp(w: World, p: StateProxy, k: Key): World
    requires p in w.drafts
  {
    w.(drafts := w.drafts[p := w.drafts[p].(props := w.drafts[p].props + {k})])
  }

  function Assign(w: World, p: StateProxy, k: Key, v: Value): World
    requires HasCopy(w, p)
  {
    w.(nodes := w.nodes[w.drafts[p].copy := CopyOf(w, p)[k := v]])
  }

  function AddObject(w: World, n: Node): World {
    w.(nodes := w.nodes[n := map[]], created := w.created + [n])
  }

  function AssignOwn(w: World, n: Node, k: Key, v: Value): World
    requires n in w.nodes
  {
    w.(nodes := w.nodes[n := w.nodes[n][k := v]])
  }

  /** The new draft q of property k of p. */
  ghost predicate FreshChild(w: World, base: map<Node, Fields>, p: StateProxy, k: Key, q: StateProxy) {
    && p in w.drafts && q !in w.drafts && q.parent == p && q.ownKey == k && q.depth == p.depth + 1
    && p.base in base && k in base[p.base] && base[p.base][k] == Ref(q.base) && q.base in base
  }

  // ----- Reading -----

  /** Nobody has made a draft of this property before. */
  lemma NoDraftYet(w: World, base: map<Node, Fields>, root: Node, mem: Memory, p: StateProxy, k: Key, q: StateProxy, o: StateProxy)
    requires Unique(w, base, root) && FreshChild(w, base, p, k, q) && o in w.drafts && DraftOk(w, base, root, mem, {}, o)
    requires if Modified(w, p) then HasCopy(w, p) && k in CopyOf(w, p) && CopyOf(w, p)[k] == Ref(q.base) else k !in w.drafts[p].proxies
    ensures o.base != q.base
  {
  }

  lemma EarlyChildDraft(w: World, base: map<Node, Fields>, root: Node, mem: Memory, p: StateProxy, k: Key, q: StateProxy, o: StateProxy)
    requires FreshChild(w, base, p, k, q) && !Modified(w, p) && k !in w.drafts[p].proxies
    requires o in w.drafts && DraftOk(w, base, root, mem, {}, o)
    ensures DraftOk(AddEarlyChild(w, p, k, q), base, root, mem, {}, o)
  {
    var w' := AddEarlyChild(w, p, k, q);
    assert LinkOk(w', base, root, o) && Registered(w', o) && ProxiesOk(w', o);
    assert CopyOk(w', base, mem, o);
    assert Told(w', o, {}) && PropsOk(w', base, o, {});
  }

  lemma EarlyChildUnique(w: World, base: map<Node, Fields>, root: Node, p: StateProxy, k: Key, q: StateProxy)
    requires FreshChild(w, base, p, k, q) && !Modified(w, p) && Unique(w, base, root) && forall o | o in w.drafts :: o.base != q.base
    ensures Unique(AddEarlyChild(w, p, k, q), base, root)
  {
  }

  lemma NewDraftOk(w: World, base: map<Node, Fields>, root: Node, mem: Memory, p: StateProxy, k: Key, q: StateProxy)
    requires p in w.drafts && q in w.drafts && w.drafts[q] == NEW_DRAFT && q.parent == p && q.ownKey == k && q.depth == p.depth + 1
    requires p.base in base && k in base[p.base] && base[p.base][k] == Ref(q.base) && q.base in base && Registered(w, q)
    ensures DraftOk(w, base, root, mem, {}, q)
  {
  }

  lemma EarlyChildNew(w: World, base: map<Node, Fields>, root: Node, mem: Memory, p: StateProxy, k: Key, q: StateProxy)
    requires FreshChild(w, base, p, k, q) && !Modified(w, p)
    ensures DraftOk(AddEarlyChild(w, p, k, q), base, root, mem, {}, q)
  {
    NewDraftOk(AddEarlyChild(w, p, k, q), base, root, mem, p, k, q);
  }

  lemma EarlyChildDrafts(w: World, base: map<Node, Fields>, root: Node, mem: Memory, p: StateProxy, k: Key, q: StateProxy)
    requires Inv(w, base, root, mem, {}) && FreshChild(w, base, p, k, q) && !Modified(w, p) && k !in w.drafts[p].proxies
    ensures forall o | o in w.drafts :: o.base != q.base && DraftOk(AddEarlyChild(w, p, k, q), base, root, mem, {}, o)
  {
    assert forall o | o in w.drafts :: o in AddEarlyChild(w, p, k, q).drafts;
    hide DraftOk, Unique, UntouchedOk, CreatedOk, Registered, AddEarlyChild;
    forall o | o in w.drafts
      ensures o.base != q.base && DraftOk(AddEarlyChild(w, p, k, q), base, root, mem, {}, o)
    {
      NoDraftYet(w, base, root, mem, p, k, q, o);
      EarlyChildDraft(w, base, root, mem, p, k, q, o);
    }
  }

  lemma EarlyChildRest(w: World, base: map<Node, Fields>, root: Node, mem: Memory, p: StateProxy, k: Key, q: StateProxy)
    requires UntouchedOk(w, base, mem) && (forall i | 0 <= i < |w.created| :: CreatedOk(w, mem, i)) && p in w.drafts && q !in w.drafts
    ensures var w' := AddEarlyChild(w, p, k, q);
            UntouchedOk(w', base, mem) && forall i | 0 <= i < |w'.created| :: CreatedOk(w', mem, i)
  {
    hide UntouchedOk, CreatedOk;
    UntouchedFrame(w, AddEarlyChild(w, p, k, q), base, mem);
    AllCreatedFrame(w, AddEarlyChild(w, p, k, q), mem);
  }

  lemma EarlyChildKeeps(w: World, base: map<Node, Fields>, root: Node, mem: Memory, p: StateProxy, k: Key, q: StateProxy)
    requires Inv(w, base, root, mem, {}) && FreshChild(w, base, p, k, q) && !Modified(w, p) && k !in w.drafts[p].proxies
    ensures Inv(AddEarlyChild(w, p, k, q), base, root, mem, {})
  {
    assert p in w.drafts && q !in w.drafts;
    hide DraftOk, Unique, UntouchedOk, CreatedOk, Registered, Modified, FreshChild;
    assert forall o | o in AddEarlyChild(w, p, k, q).drafts :: o in w.drafts || o == q;
    hide AddEarlyChild;
    EarlyChildNew(w, base, root, mem, p, k, q);
    EarlyChildDrafts(w, base, root, mem, p, k, q);
    EarlyChildUnique(w, base, root, p, k, q);
    EarlyChildRest(w, base, root, mem, p, k, q);
  }

  /** Objects that were touched stay so. */
  lemma UntouchedFrame(w: World, w': World, base: map<Node, Fields>, mem: Memory)
    requires UntouchedOk(w, base, mem) && forall p | p in w.drafts && Modified(w, p) :: p in w'.drafts && Modified(w', p)
    ensures UntouchedOk(w', base, mem)
  {
    forall b | b in base && Touched(w, b)
      ensures Touched(w', b)
    {
      var p :| p in w.drafts && Modified(w, p) && p.base == b;
      assert Modified(w', p);
    }
  }

  lemma AllCreatedFrame(w: World, w': World, mem: Memory)
    requires (forall i | 0 <= i < |w.created| :: CreatedOk(w, mem, i)) && w.created == w'.created
    requires forall n | n in w.created && n in w.nodes :: n in w'.nodes && w'.nodes[n] == w.nodes[n]
    ensures forall i | 0 <= i < |w'.created| :: CreatedOk(w', mem, i)
  {
    forall i | 0 <= i < |w'.created|
      ensures CreatedOk(w', mem, i)
    {
      assert CreatedOk(w, mem, i) && w.created[i] in w.created;
    }
  }

  // ----- Reading a modified draft -----

  lemma LateChildCopy(w: World, base: map<Node, Fields>, root: Node, mem: Memory, p: StateProxy, k: Key, q: StateProxy, o: StateProxy)
    requires FreshChild(w, base, p, k, q) && HasCopy(w, p) && k in CopyOf(w, p) && CopyOf(w, p)[k] == Ref(q.base)
    requires o in w.drafts && CopyOk(w, base, mem, o) && CopyOk(w, base, mem, p) && DistinctCopies(w)
    requires q.base !in w.created
    ensures CopyOk(AddLateChild(w, p, k, q), base, mem, o)
  {
  }

  lemma LateChildProps(w: World, base: map<Node, Fields>, p: StateProxy, k: Key, q: StateProxy, o: StateProxy)
    requires FreshChild(w, base, p, k, q) && HasCopy(w, p) && k in CopyOf(w, p) && CopyOf(w, p)[k] == Ref(q.base)
    requires o in w.drafts && PropsOk(w, base, o, {}) && PropsOk(w, base, p, {}) && DistinctCopies(w)
    ensures PropsOk(AddLateChild(w, p, k, q), base, o, {})
  {
  }

  lemma LateChildDraft(w: World, base: map<Node, Fields>, root: Node, mem: Memory, p: StateProxy, k: Key, q: StateProxy, o: StateProxy)
    requires FreshChild(w, base, p, k, q) && HasCopy(w, p) && k in CopyOf(w, p) && CopyOf(w, p)[k] == Ref(q.base)
    requires o in w.drafts && DraftOk(w, base, root, mem, {}, o) && DraftOk(w, base, root, mem, {}, p) && DistinctCopies(w)
    requires q.base !in w.created
    ensures DraftOk(AddLateChild(w, p, k, q), base, root, mem, {}, o)
  {
    var w' := AddLateChild(w, p, k, q);
    LateChildCopy(w, base, root, mem, p, k, q, o);
    LateChildProps(w, base, p, k, q, o);
    hide CopyOk, PropsOk;
    assert LinkOk(w', base, root, o) && ProxiesOk(w', o) && Told(w', o, {});
    assert Registered(w', o);
  }

  lemma LateChildUnique(w: World, base: map<Node, Fields>, root: Node, p: StateProxy, k: Key, q: StateProxy)
    requires FreshChild(w, base, p, k, q) && HasCopy(w, p) && Unique(w, base, root) && forall o | o in w.drafts :: o.base != q.base
    ensures Unique(AddLateChild(w, p, k, q), base, root)
  {
  }

  lemma LateFacts(w: World, base: map<Node, Fields>, root: Node, mem: Memory, p: StateProxy, k: Key, q: StateProxy)
    requires Unique(w, base, root) && FreshChild(w, base, p, k, q) && HasCopy(w, p) && DraftOk(w, base, root, mem, {}, p)
    ensures w.drafts[p].copy !in w.created && q.base !in w.created && DistinctCopies(w) && Registered(AddLateChild(w, p, k, q), q)
  {
  }

  lemma LateChildDrafts(w: World, base: map<Node, Fields>, root: Node, mem: Memory, p: StateProxy, k: Key, q: StateProxy)
    requires Inv(w, base, root, mem, {}) && FreshChild(w, base, p, k, q)
    requires HasCopy(w, p) && k in CopyOf(w, p) && CopyOf(w, p)[k] == Ref(q.base)
    ensures w.drafts[p].copy !in w.created && forall o | o in w.drafts :: o.base != q.base
    ensures var w' := AddLateChild(w, p, k, q); forall o | o in w'.drafts :: DraftOk(w', base, root, mem, {}, o)
  {
    var w' := AddLateChild(w, p, k, q);
    hide DraftOk, Unique, UntouchedOk, CreatedOk, Registered, DistinctCopies;
    LateFacts(w, base, root, mem, p, k, q);
    NewDraftOk(w', base, root, mem, p, k, q);
    forall o | o in w.drafts
      ensures o.base != q.base && DraftOk(w', base, root, mem, {}, o)
    {
      NoDraftYet(w, base, root, mem, p, k, q, o);
      LateChildDraft(w, base, root, mem, p, k, q, o);
    }
  }

  lemma LateChildRest(w: World, base: map<Node, Fields>, root: Node, mem: Memory, p: StateProxy, k: Key, q: StateProxy)
    requires UntouchedOk(w, base, mem) && (forall i | 0 <= i < |w.created| :: CreatedOk(w, mem, i))
    requires q !in w.drafts && HasCopy(w, p) && p in w.drafts && w.drafts[p].copy !in w.created
    ensures var w' := AddLateChild(w, p, k, q);
            UntouchedOk(w', base, mem) && forall i | 0 <= i < |w'.created| :: CreatedOk(w', mem, i)
  {
    hide UntouchedOk, CreatedOk;
    UntouchedFrame(w, AddLateChild(w, p, k, q), base, mem);
    AllCreatedFrame(w, AddLateChild(w, p, k, q), mem);
  }

  lemma LateChildKeeps(w: World, base: map<Node, Fields>, root: Node, mem: Memory, p: StateProxy, k: Key, q: StateProxy)
    requires Inv(w, base, root, mem, {}) && FreshChild(w, base, p, k, q)
    requires HasCopy(w, p) && k in CopyOf(w, p) && CopyOf(w, p)[k] == Ref(q.base)
    ensures Inv(AddLateChild(w, p, k, q), base, root, mem, {})
  {
    assert p in w.drafts && q !in w.drafts;
    hide DraftOk, Unique, UntouchedOk, CreatedOk, AddLateChild, FreshChild, HasCopy, CopyOf;
    LateChildDrafts(w, base, root, mem, p, k, q);
    LateChildUnique(w, base, root, p, k, q);
    LateChildRest(w, base, root, mem, p, k, q);
  }

  // ----- Marking a draft as modified -----

  /** The draft is about to be marked, with a new object for its copy. */
  ghost predicate Markable(w: World, base: map<Node, Fields>, p: StateProxy, c: Node) {
    && p in w.drafts && !w.drafts[p].modified && p.base in base
    && c !in base && c !in w.nodes && c !in w.created
    && (forall o | o in w.drafts && Modified(w, o) :: w.drafts[o].copy != c)
  }

  lemma MarkKey(w: World, base: map<Node, Fields>, root: Node, mem: Memory, p: StateProxy, k: Key)
    requires BaseOk(base, root) && p in w.drafts && p.base in base && ProxiesOk(w, p) && forall n | n in w.created :: n !in base
    requires k in Overlay(base[p.base], w.drafts[p].proxies)
    requires k in w.drafts[p].proxies ==> LinkOk(w, base, root, w.drafts[p].proxies[k])
    ensures k in base[p.base]
    ensures Means(w, Overlay(base[p.base], w.drafts[p].proxies)[k], Lift(base[p.base][k]))
    ensures Storable(w, base, p.base, k, Overlay(base[p.base], w.drafts[p].proxies)[k])
  {
  }

  /** An unmodified draft shows its base object. */
  lemma MarkShows(w: World, base: map<Node, Fields>, root: Node, mem: Memory, p: StateProxy, c: Node)
    requires Markable(w, base, p, c) && BaseOk(base, root) && ProxiesOk(w, p) && forall n | n in w.created :: n !in base
    requires Base(p.base) in mem && mem[Base(p.base)] == LiftFields(base[p.base])
    requires forall k | k in w.drafts[p].proxies :: LinkOk(w, base, root, w.drafts[p].proxies[k])
    ensures CopyOk(MarkOne(w, p, c, base[p.base]), base, mem, p)
  {
    var w' := MarkOne(w, p, c, base[p.base]);
    var f := Overlay(base[p.base], w.drafts[p].proxies);
    assert CopyOf(w', p) == f;
    forall k | k in f
      ensures k in base[p.base] && Means(w', f[k], mem[Base(p.base)][k]) && Storable(w', base, p.base, k, f[k])
    {
      MarkKey(w, base, root, mem, p, k);
    }
    assert f.Keys == mem[Base(p.base)].Keys;
  }

  lemma MarkProps(w: World, base: map<Node, Fields>, root: Node, p: StateProxy, c: Node, pending: set<StateProxy>)
    requires Markable(w, base, p, c) && BaseOk(base, root) && ProxiesOk(w, p)
    requires forall k | k in w.drafts[p].proxies :: LinkOk(w, base, root, w.drafts[p].proxies[k])
    requires forall k | k in w.drafts[p].proxies :: !Modified(w, w.drafts[p].proxies[k]) || w.drafts[p].proxies[k] in pending
    ensures PropsOk(MarkOne(w, p, c, base[p.base]), base, p, pending)
  {
  }

  lemma MarkOther(w: World, base: map<Node, Fields>, root: Node, mem: Memory, pending: set<StateProxy>, p: StateProxy, c: Node, o: StateProxy)
    requires Markable(w, base, p, c) && o in w.drafts && o != p && DraftOk(w, base, root, mem, pending, o)
    ensures DraftOk(MarkOne(w, p, c, base[p.base]), base, root, mem, pending + {p}, o)
  {
    var w' := MarkOne(w, p, c, base[p.base]);
    assert LinkOk(w', base, root, o) && ProxiesOk(w', o);
    assert Registered(w', o);
    assert CopyOk(w', base, mem, o);
    assert Told(w', o, pending + {p}) && PropsOk(w', base, o, pending + {p});
  }

  /** Before it is marked, nothing that p stands for has changed, and modified children are still pending. */
  lemma BeforeMark(w: World, base: map<Node, Fields>, root: Node, mem: Memory, pending: set<StateProxy>, p: StateProxy, c: Node)
    requires Inv(w, base, root, mem, pending) && Markable(w, base, p, c)
    ensures Base(p.base) in mem && mem[Base(p.base)] == LiftFields(base[p.base])
    ensures forall k | k in w.drafts[p].proxies ::
              LinkOk(w, base, root, w.drafts[p].proxies[k]) &&
              (!Modified(w, w.drafts[p].proxies[k]) || w.drafts[p].proxies[k] in pending)
  {
    hide CopyOk, PropsOk, CreatedOk, Registered;
    assert !Touched(w, p.base);
    assert DraftOk(w, base, root, mem, pending, p);
    forall k | k in w.drafts[p].proxies
      ensures LinkOk(w, base, root, w.drafts[p].proxies[k])
      ensures !Modified(w, w.drafts[p].proxies[k]) || w.drafts[p].proxies[k] in pending
    {
      assert DraftOk(w, base, root, mem, pending, w.drafts[p].proxies[k]);
    }
  }

  lemma MarkSelfDraft(w: World, base: map<Node, Fields>, root: Node, mem: Memory, pending: set<StateProxy>, p: StateProxy, c: Node)
    requires Markable(w, base, p, c) && Unique(w, base, root) && DraftOk(w, base, root, mem, pending, p)
    requires Base(p.base) in mem && mem[Base(p.base)] == LiftFields(base[p.base])
    requires forall k | k in w.drafts[p].proxies ::
              LinkOk(w, base, root, w.drafts[p].proxies[k]) &&
              (!Modified(w, w.drafts[p].proxies[k]) || w.drafts[p].proxies[k] in pending)
    ensures DraftOk(MarkOne(w, p, c, base[p.base]), base, root, mem, pending + {p}, p)
  {
    var w' := MarkOne(w, p, c, base[p.base]);
    MarkShows(w, base, root, mem, p, c);
    MarkProps(w, base, root, p, c, pending + {p});
    hide CopyOk, PropsOk;
    assert LinkOk(w', base, root, p) && ProxiesOk(w', p) && Registered(w', p);
  }

  lemma MarkSelf(w: World, base: map<Node, Fields>, root: Node, mem: Memory, pending: set<StateProxy>, p: StateProxy, c: Node)
    requires Inv(w, base, root, mem, pending) && Markable(w, base, p, c)
    ensures DraftOk(MarkOne(w, p, c, base[p.base]), base, root, mem, pending + {p}, p)
  {
    hide DraftOk, LinkOk, UntouchedOk, CreatedOk, BaseOk;
    BeforeMark(w, base, root, mem, pending, p, c);
    MarkSelfDraft(w, base, root, mem, pending, p, c);
  }

  lemma MarkUnique(w: World, base: map<Node, Fields>, root: Node, p: StateProxy, c: Node)
    requires Markable(w, base, p, c) && Unique(w, base, root)
    ensures Unique(MarkOne(w, p, c, base[p.base]), base, root)
  {
  }

  lemma MarkKeeps(w: World, base: map<Node, Fields>, root: Node, mem: Memory, pending: set<StateProxy>, p: StateProxy, c: Node)
    requires Inv(w, base, root, mem, pending) && Markable(w, base, p, c)
    ensures Inv(MarkOne(w, p, c, base[p.base]), base, root, mem, pending + {p})
  {
    var w' := MarkOne(w, p, c, base[p.base]);
    hide DraftOk, Unique, UntouchedOk, CreatedOk;
    MarkSelf(w, base, root, mem, pending, p, c);
    forall o | o in w.drafts
      ensures DraftOk(w', base, root, mem, pending + {p}, o)
    {
      if o != p { MarkOther(w, base, root, mem, pending, p, c, o); }
    }
    MarkUnique(w, base, root, p, c);
    UntouchedFrame(w, w', base, mem);
    AllCreatedFrame(w, w', mem);
  }

  lemma PropDraft(w: World, base: map<Node, Fields>, root: Node, mem: Memory, pending: set<StateProxy>, q: StateProxy, o: StateProxy)
    requires q in w.drafts && q.parent != null && Modified(w, q.parent) && o in w.drafts
    requires DraftOk(w, base, root, mem, pending + {q}, o)
    ensures DraftOk(AddProp(w, q.parent, q.ownKey), base, root, mem, pending, o)
  {
    var w' := AddProp(w, q.parent, q.ownKey);
    assert LinkOk(w', base, root, o) && ProxiesOk(w', o);
    assert Registered(w', o);
    assert CopyOk(w', base, mem, o);
    assert Told(w', o, pending) && PropsOk(w', base, o, pending);
  }

  lemma PropUnique(w: World, base: map<Node, Fields>, root: Node, p: StateProxy, k: Key)
    requires p in w.drafts && Unique(w, base, root)
    ensures Unique(AddProp(w, p, k), base, root)
  {
  }

  /** Once the parent is modified and lists the property, the child is no longer pending. */
  lemma PropKeeps(w: World, base: map<Node, Fields>, root: Node, mem: Memory, pending: set<StateProxy>, q: StateProxy)
    requires q in w.drafts && q.parent != null && Modified(w, q.parent)
    requires Inv(w, base, root, mem, pending + {q})
    ensures Inv(AddProp(w, q.parent, q.ownKey), base, root, mem, pending)
  {
    var w' := AddProp(w, q.parent, q.ownKey);
    hide DraftOk, Unique, UntouchedOk, CreatedOk;
    PropUnique(w, base, root, q.parent, q.ownKey);
    forall o | o in w'.drafts
      ensures DraftOk(w', base, root, mem, pending, o)
    {
      PropDraft(w, base, root, mem, pending, q, o);
    }
    UntouchedFrame(w, w', base, mem);
    AllCreatedFrame(w, w', mem);
  }

  /** Any property may be listed as modified. */
  lemma ListKeeps(w: World, base: map<Node, Fields>, root: Node, mem: Memory, p: StateProxy, k: Key)
    requires p in w.drafts && Inv(w, base, root, mem, {})
    ensures Inv(AddProp(w, p, k), base, root, mem, {})
  {
    var w' := AddProp(w, p, k);
    hide DraftOk, Unique, UntouchedOk, CreatedOk;
    PropUnique(w, base, root, p, k);
    forall o | o in w'.drafts
      ensures DraftOk(w', base, root, mem, {}, o)
    {
      ListDraft(w, base, root, mem, p, k, o);
    }
    UntouchedFrame(w, w', base, mem);
    AllCreatedFrame(w, w', mem);
  }

  lemma ListDraft(w: World, base: map<Node, Fields>, root: Node, mem: Memory, p: StateProxy, k: Key, o: StateProxy)
    requires p in w.drafts && o in w.drafts && DraftOk(w, base, root, mem, {}, o)
    ensures DraftOk(AddProp(w, p, k), base, root, mem, {}, o)
  {
    var w' := AddProp(w, p, k);
    assert LinkOk(w', base, root, o) && ProxiesOk(w', o);
    assert Registered(w', o);
    assert CopyOk(w', base, mem, o);
    assert Told(w', o, {}) && PropsOk(w', base, o, {});
  }

  /** The root has nobody to tell. */
  lemma RootTold(w: World, base: map<Node, Fields>, root: Node, mem: Memory, pending: set<StateProxy>, q: StateProxy)
    requires q in w.drafts && q.parent == null && Inv(w, base, root, mem, pending + {q})
    ensures Inv(w, base, root, mem, pending)
  {
    hide DraftOk, Unique, UntouchedOk, CreatedOk;
    forall o | o in w.drafts
      ensures DraftOk(w, base, root, mem, pending, o)
    {
      RootToldDraft(w, base, root, mem, pending, q, o);
    }
  }

  lemma RootToldDraft(w: World, base: map<Node, Fields>, root: Node, mem: Memory, pending: set<StateProxy>, q: StateProxy, o: StateProxy)
    requires q.parent == null && o in w.drafts && DraftOk(w, base, root, mem, pending + {q}, o)
    ensures DraftOk(w, base, root, mem, pending, o)
  {
    hide LinkOk, Registered, ProxiesOk, CopyOk;
  }

  // ----- Writing -----

  /** A value that a register can hold: never a raw object of the base. */
  predicate Handle(w: World, v: Value) {
    match v
    case Undefined => true
    case Prim(_) => true
    case Ref(n) => n in w.created
    case Draft(q) => q in w.drafts
  }

  function SetProperty(mem: Memory, x: Name, k: Key, r: RVal): Memory
    requires x in mem
  {
    mem[x := mem[x][k := r]]
  }

  lemma AssignCopy(w: World, base: map<Node, Fields>, mem: Memory, p: StateProxy, k: Key, v: Value, r: RVal, o: StateProxy)
    requires o in w.drafts && p in w.drafts && SingleDrafts(w) && DistinctCopies(w) && forall n | n in w.created :: n !in base
    requires CopyOk(w, base, mem, o) && CopyOk(w, base, mem, p)
    requires HasCopy(w, p) && Handle(w, v) && Means(w, v, r)
    ensures Base(p.base) in mem && CopyOk(Assign(w, p, k, v), base, SetProperty(mem, Base(p.base), k, r), o)
  {
  }

  lemma AssignDraft(w: World, base: map<Node, Fields>, root: Node, mem: Memory, p: StateProxy, k: Key, v: Value, r: RVal, o: StateProxy)
    requires o in w.drafts && p in w.drafts && Unique(w, base, root)
    requires DraftOk(w, base, root, mem, {}, o) && DraftOk(w, base, root, mem, {}, p)
    requires HasCopy(w, p) && k in w.drafts[p].props && Handle(w, v) && Means(w, v, r)
    ensures Base(p.base) in mem && DraftOk(Assign(w, p, k, v), base, root, SetProperty(mem, Base(p.base), k, r), {}, o)
  {
    var w' := Assign(w, p, k, v);
    AssignCopy(w, base, mem, p, k, v, r, o);
    hide CopyOk;
    assert LinkOk(w', base, root, o) && ProxiesOk(w', o);
    assert Registered(w', o);
    assert Told(w', o, {}) && PropsOk(w', base, o, {});
  }

  lemma AssignUnique(w: World, base: map<Node, Fields>, root: Node, p: StateProxy, k: Key, v: Value)
    requires Unique(w, base, root) && HasCopy(w, p)
    ensures Unique(Assign(w, p, k, v), base, root)
  {
  }

  /** A write through a modified draft is the same write in the deep copy. */
  lemma AssignKeeps(w: World, base: map<Node, Fields>, root: Node, mem: Memory, p: StateProxy, k: Key, v: Value, r: RVal)
    requires Inv(w, base, root, mem, {}) && p in w.drafts && HasCopy(w, p) && k in w.drafts[p].props
    requires Handle(w, v) && Means(w, v, r)
    ensures Base(p.base) in mem && Inv(Assign(w, p, k, v), base, root, SetProperty(mem, Base(p.base), k, r), {})
  {
    var w' := Assign(w, p, k, v);
    CopyInMemory(w, base, root, mem, p);
    hide DraftOk, Unique, UntouchedOk, CreatedOk;
    var mem' := SetProperty(mem, Base(p.base), k, r);
    forall o | o in w'.drafts
      ensures DraftOk(w', base, root, mem', {}, o)
    {
      AssignDraft(w, base, root, mem, p, k, v, r, o);
    }
    AssignUnique(w, base, root, p, k, v);
    AssignUntouched(w, base, mem, p, k, v, r);
    AssignCreated(w, mem, p, k, v, r);
  }

  lemma CopyInMemory(w: World, base: map<Node, Fields>, root: Node, mem: Memory, p: StateProxy)
    requires p in w.drafts && HasCopy(w, p) && DraftOk(w, base, root, mem, {}, p)
    ensures Base(p.base) in mem && w.drafts[p].copy !in w.created
  {
  }

  lemma AssignUntouched(w: World, base: map<Node, Fields>, mem: Memory, p: StateProxy, k: Key, v: Value, r: RVal)
    requires UntouchedOk(w, base, mem) && p in w.drafts && HasCopy(w, p) && Base(p.base) in mem
    ensures UntouchedOk(Assign(w, p, k, v), base, SetProperty(mem, Base(p.base), k, r))
  {
    var w' := Assign(w, p, k, v);
    assert Touched(w', p.base);
    UntouchedFrame(w, w', base, mem);
  }

  lemma AssignCreated(w: World, mem: Memory, p: StateProxy, k: Key, v: Value, r: RVal)
    requires (forall i | 0 <= i < |w.created| :: CreatedOk(w, mem, i)) && HasCopy(w, p) && w.drafts[p].copy !in w.created
    requires Base(p.base) in mem
    ensures forall i | 0 <= i < |w.created| :: CreatedOk(Assign(w, p, k, v), SetProperty(mem, Base(p.base), k, r), i)
  {
    var w' := Assign(w, p, k, v);
    AllCreatedFrame(w, w', mem);
    forall i | 0 <= i < |w.created|
      ensures CreatedOk(w', SetProperty(mem, Base(p.base), k, r), i)
    {
      assert CreatedOk(w', mem, i);
    }
  }

  // ----- Objects made by the producer -----

  lemma AddObjectDraft(w: World, base: map<Node, Fields>, root: Node, mem: Memory, n: Node, o: StateProxy)
    requires o in w.drafts && DraftOk(w, base, root, mem, {}, o) && n !in w.nodes && n !in base
    ensures DraftOk(AddObject(w, n), base, root, mem[New(|w.created|) := map[]], {}, o)
  {
    var w' := AddObject(w, n);
    assert LinkOk(w', base, root, o) && ProxiesOk(w', o);
    assert Registered(w', o);
    assert CopyOk(w', base, mem[New(|w.created|) := map[]], o);
    assert Told(w', o, {}) && PropsOk(w', base, o, {});
  }

  lemma AddObjectUnique(w: World, base: map<Node, Fields>, root: Node, n: Node)
    requires Unique(w, base, root) && n !in base && n !in w.created
    ensures Unique(AddObject(w, n), base, root)
  {
  }

  lemma AddObjectCreated(w: World, mem: Memory, n: Node, i: nat)
    requires i < |w.created| ==> CreatedOk(w, mem, i)
    requires n !in w.nodes && i <= |w.created|
    ensures CreatedOk(AddObject(w, n), mem[New(|w.created|) := map[]], i)
  {
  }

  lemma AddObjectKeeps(w: World, base: map<Node, Fields>, root: Node, mem: Memory, n: Node)
    requires Inv(w, base, root, mem, {}) && n !in base && n !in w.created && n !in w.nodes
    ensures Inv(AddObject(w, n), base, root, mem[New(|w.created|) := map[]], {})
  {
    var w' := AddObject(w, n);
    var mem' := mem[New(|w.created|) := map[]];
    hide DraftOk, Unique, CreatedOk;
    forall o | o in w'.drafts
      ensures DraftOk(w', base, root, mem', {}, o)
    {
      AddObjectDraft(w, base, root, mem, n, o);
    }
    AddObjectUnique(w, base, root, n);
    UntouchedFrame(w, w', base, mem);
    forall i | 0 <= i < |w'.created|
      ensures CreatedOk(w', mem', i)
    {
      AddObjectCreated(w, mem, n, i);
    }
  }

  lemma AssignOwnDraft(w: World, base: map<Node, Fields>, root: Node, mem: Memory, i: nat, k: Key, v: Value, r: RVal, o: StateProxy)
    requires o in w.drafts && DraftOk(w, base, root, mem, {}, o) && i < |w.created| && w.created[i] in w.nodes && New(i) in mem
    requires o.parent != null && o.parent in w.drafts ==> DraftOk(w, base, root, mem, {}, o.parent)
    ensures DraftOk(AssignOwn(w, w.created[i], k, v), base, root, SetProperty(mem, New(i), k, r), {}, o)
  {
    var w' := AssignOwn(w, w.created[i], k, v);
    assert LinkOk(w', base, root, o) && ProxiesOk(w', o);
    assert Registered(w', o);
    assert CopyOk(w', base, SetProperty(mem, New(i), k, r), o);
    assert Told(w', o, {}) && PropsOk(w', base, o, {});
  }

  lemma AssignOwnCreated(w: World, mem: Memory, i: nat, k: Key, v: Value, r: RVal, j: nat)
    requires i < |w.created| && CreatedOk(w, mem, i) && j < |w.created| && CreatedOk(w, mem, j)
    requires (i != j ==> w.created[i] != w.created[j]) && OwnValue(w, v) && Means(w, v, r)
    ensures CreatedOk(AssignOwn(w, w.created[i], k, v), SetProperty(mem, New(i), k, r), j)
  {
  }

  /** A write to an object made by the producer happens directly. */
  lemma AssignOwnKeeps(w: World, base: map<Node, Fields>, root: Node, mem: Memory, i: nat, k: Key, v: Value, r: RVal)
    requires Inv(w, base, root, mem, {}) && i < |w.created| && OwnValue(w, v) && Means(w, v, r)
    ensures w.created[i] in w.nodes && New(i) in mem
    ensures Inv(AssignOwn(w, w.created[i], k, v), base, root, SetProperty(mem, New(i), k, r), {})
  {
    assert CreatedOk(w, mem, i);
    var w' := AssignOwn(w, w.created[i], k, v);
    var mem' := SetProperty(mem, New(i), k, r);
    hide DraftOk, CreatedOk, BaseOk, DistinctCopies, SingleDrafts;
    forall o | o in w'.drafts
      ensures DraftOk(w', base, root, mem', {}, o)
    {
      AssignOwnDraft(w, base, root, mem, i, k, v, r, o);
    }
    AssignOwnUnique(w, base, root, i, k, v);
    UntouchedFrame(w, w', base, mem);
    forall j | 0 <= j < |w'.created|
      ensures CreatedOk(w', mem', j)
    {
      AssignOwnCreated(w, mem, i, k, v, r, j);
    }
  }

  lemma AssignOwnUnique(w: World, base: map<Node, Fields>, root: Node, i: nat, k: Key, v: Value)
    requires Unique(w, base, root) && i < |w.created| && w.created[i] in w.nodes
    ensures Unique(AssignOwn(w, w.created[i], k, v), base, root)
  {
  }
}
