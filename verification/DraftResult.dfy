// What `finalize` of src/StateProxy.js leaves behind: the result is the mutated deep copy, up to the
// identity of objects, and shares every base object that no write reached.
module DraftResult {
  import opened DraftModel
  import opened DraftSteps

  // ----- Which drafts are modified -----

  /** The draft and everything above it. */
  ghost function Chain(p: StateProxy): set<StateProxy>
    decreases p.depth
  {
    {p} + if p.parent != null && p.parent.depth < p.depth then Chain(p.parent) else {}
  }

  /** The path of properties leads from a down to b in the base. */
  ghost predicate Descends(base: map<Node, Fields>, a: Node, b: Node, path: seq<Key>) {
    if path == [] then a == b
    else exists c :: c in base && path[|path| - 1] in base[c] && base[c][path[|path| - 1]] == Ref(b)
                     && Descends(base, a, c, path[..|path| - 1])
  }

  /** a is b, or an object of the base above it. */
  ghost predicate Above(base: map<Node, Fields>, a: Node, b: Node) {
    exists path :: Descends(base, a, b, path)
  }

  /** Some write changed the object or one below it. */
  ghost predicate WrittenBelow(base: map<Node, Fields>, written: set<Node>, b: Node) {
    exists n :: n in written && Above(base, b, n)
  }

  /** A draft is modified exactly when a write changed its object or one below it. */
  ghost predicate MarksOk(w: World, base: map<Node, Fields>, written: set<Node>) {
    && (forall p | p in w.drafts :: Modified(w, p) <==> WrittenBelow(base, written, p.base))
    && (forall n | n in written :: Touched(w, n))
  }

  ghost predicate LinksOk(w: World, base: map<Node, Fields>, root: Node) {
    && BaseOk(base, root) && SingleDrafts(w)
    && forall p | p in w.drafts :: LinkOk(w, base, root, p)
  }

  lemma {:induction false} ChainDescends(w: World, base: map<Node, Fields>, root: Node, p: StateProxy, q: StateProxy)
    requires LinksOk(w, base, root) && p in w.drafts && q in Chain(p)
    ensures q in w.drafts && Above(base, q.base, p.base)
    decreases p.depth
  {
    assert LinkOk(w, base, root, p);
    if q == p {
      assert Descends(base, p.base, p.base, []);
    } else {
      ChainDescends(w, base, root, p.parent, q);
      var path :| Descends(base, q.base, p.parent.base, path);
      assert (path + [p.ownKey])[..|path|] == path;
      assert Descends(base, q.base, p.base, path + [p.ownKey]);
    }
  }

  lemma {:induction false} DescendsChain(w: World, base: map<Node, Fields>, root: Node, p: StateProxy, a: Node, path: seq<Key>)
    requires LinksOk(w, base, root) && p in w.drafts && Descends(base, a, p.base, path)
    ensures exists q :: q in Chain(p) && q.base == a
    decreases |path|
  {
    if path == [] {
      assert p in Chain(p);
    } else {
      assert LinkOk(w, base, root, p);
      var last := path[|path| - 1];
      var c :| c in base && last in base[c] && base[c][last] == Ref(p.base) && Descends(base, a, c, path[..|path| - 1]);
      assert p.parent != null && c == p.parent.base;
      DescendsChain(w, base, root, p.parent, a, path[..|path| - 1]);
    }
  }

  /** The chain of a draft covers exactly the base objects above its own. */
  lemma ChainIsAbove(w: World, base: map<Node, Fields>, root: Node, p: StateProxy, q: StateProxy)
    requires LinksOk(w, base, root) && p in w.drafts && q in w.drafts
    ensures q in Chain(p) <==> Above(base, q.base, p.base)
  {
    if q in Chain(p) {
      ChainDescends(w, base, root, p, q);
    }
    if Above(base, q.base, p.base) {
      var path :| Descends(base, q.base, p.base, path);
      DescendsChain(w, base, root, p, q.base, path);
      var o :| o in Chain(p) && o.base == q.base;
      ChainDescends(w, base, root, p, o);
    }
  }

  /** Marking the chain of p accounts for a write to p. */
  lemma MarksAfter(w: World, w': World, base: map<Node, Fields>, root: Node, written: set<Node>, p: StateProxy)
    requires LinksOk(w, base, root) && MarksOk(w, base, written) && p in w.drafts && w'.drafts.Keys == w.drafts.Keys
    requires forall o | o in w.drafts :: Modified(w', o) <==> Modified(w, o) || o in Chain(p)
    ensures MarksOk(w', base, written + {p.base})
  {
    InChain(p);
    hide LinksOk, Chain, WrittenBelow, Touched, Modified;
    forall o | o in w'.drafts
      ensures Modified(w', o) <==> WrittenBelow(base, written + {p.base}, o.base)
    {
      MarkAfter(w, w', base, root, written, p, o);
    }
    TouchedAfter(w, w', written, p);
  }

  lemma InChain(p: StateProxy)
    ensures p in Chain(p)
  {
  }

  lemma TouchedAfter(w: World, w': World, written: set<Node>, p: StateProxy)
    requires p in w.drafts && w'.drafts.Keys == w.drafts.Keys && Modified(w', p)
    requires forall o | o in w.drafts && Modified(w, o) :: Modified(w', o)
    requires forall n | n in written :: Touched(w, n)
    ensures forall n | n in written + {p.base} :: Touched(w', n)
  {
    assert Touched(w', p.base);
    forall n | n in written
      ensures Touched(w', n)
    {
      var o :| o in w.drafts && Modified(w, o) && o.base == n;
      assert Modified(w', o);
    }
  }

  lemma MarkAfter(w: World, w': World, base: map<Node, Fields>, root: Node, written: set<Node>, p: StateProxy, o: StateProxy)
    requires LinksOk(w, base, root) && p in w.drafts && o in w.drafts && o in w'.drafts
    requires Modified(w, o) <==> WrittenBelow(base, written, o.base)
    requires Modified(w', o) <==> Modified(w, o) || o in Chain(p)
    ensures Modified(w', o) <==> WrittenBelow(base, written + {p.base}, o.base)
  {
    ChainIsAbove(w, base, root, p, o);
    hide LinksOk, Above, Modified;
    if n :| n in written && Above(base, o.base, n) {
      assert n in written + {p.base};
    }
    if Above(base, o.base, p.base) {
      assert p.base in written + {p.base};
    }
  }

  // ----- Finalizing -----

  /** What every object of the deep copy ends up as. */
  type Image = map<Name, Node>

  function FinalValue(image: Image, r: RVal): Value {
    match r
    case RUndefined => Undefined
    case RPrim(x) => Prim(x)
    case RObj(n) => if n in image then Ref(image[n]) else Undefined
  }

  /** Still a draft, to be finalized. */
  predicate Open(w: World, v: Value, r: RVal) {
    v.Draft? && v.proxy in w.drafts && r == RObj(Base(v.proxy.base))
  }

  /** Modified drafts that a final value refers to have been finalized. */
  ghost predicate Reached(w: World, r: RVal) {
    forall q | q in w.drafts && Modified(w, q) && r == RObj(Base(q.base)) :: w.drafts[q].finalized
  }

  /** Already what it has to be in the end. */
  ghost predicate Settled(w: World, image: Image, v: Value, r: RVal) {
    v == FinalValue(image, r) && Reached(w, r)
  }

  /** The copy of a modified draft while drafts are being finalized. */
  ghost predicate Finalizing(w: World, mem: Memory, image: Image, p: StateProxy) {
    && Base(p.base) in image
    && (!Modified(w, p) ==> image[Base(p.base)] == p.base)
    && (Modified(w, p) ==>
          && HasCopy(w, p) && w.drafts[p].copy !in w.created
          && Base(p.base) in mem && image[Base(p.base)] == w.drafts[p].copy
          && CopyOf(w, p).Keys == mem[Base(p.base)].Keys
          && forall k | k in CopyOf(w, p) ::
               Settled(w, image, CopyOf(w, p)[k], mem[Base(p.base)][k]) || Open(w, CopyOf(w, p)[k], mem[Base(p.base)][k]))
  }

  ghost predicate AllFinalizing(w: World, mem: Memory, image: Image) {
    DistinctCopies(w) && SingleDrafts(w) && forall p | p in w.drafts :: Finalizing(w, mem, image, p)
  }

  ghost predicate Done(w: World, mem: Memory, image: Image, p: StateProxy) {
    && HasCopy(w, p) && w.drafts[p].finalized && Base(p.base) in mem && CopyOf(w, p).Keys == mem[Base(p.base)].Keys
    && forall k | k in CopyOf(w, p) ::
         Settled(w, image, CopyOf(w, p)[k], mem[Base(p.base)][k])
  }

  /** The image before finalizing: copies for modified drafts, the base object itself for everything else. */
  ghost predicate ImageOk(w: World, base: map<Node, Fields>, image: Image) {
    && image.Keys == (set b | b in base :: Base(b)) + (set i | 0 <= i < |w.created| :: New(i))
    && (forall b | b in base && !Touched(w, b) :: image[Base(b)] == b)
    && (forall p | p in w.drafts && Modified(w, p) && p.base in base :: image[Base(p.base)] == w.drafts[p].copy)
    && (forall i | 0 <= i < |w.created| :: image[New(i)] == w.created[i])
  }

  ghost function ImageOfBase(w: World, b: Node): Node {
    if Touched(w, b) then
      var p :| p in w.drafts && Modified(w, p) && p.base == b;
      if w.drafts[p].copy == null then b else w.drafts[p].copy
    else b
  }

  lemma MakeImage(w: World, base: map<Node, Fields>) returns (image: Image)
    requires SingleDrafts(w) && forall p | p in w.drafts && Modified(w, p) :: w.drafts[p].copy != null
    ensures ImageOk(w, base, image)
  {
    image := (map b | b in base :: Base(b) := ImageOfBase(w, b)) + (map i | 0 <= i < |w.created| :: New(i) := w.created[i]);
  }

  /** A raw base object in a copy has no draft, so it is its own image. */
  lemma RawUntouched(w: World, base: map<Node, Fields>, root: Node, mem: Memory, p: StateProxy, k: Key, o: StateProxy)
    requires p in w.drafts && SingleDrafts(w) && BaseOk(base, root) && DraftOk(w, base, root, mem, {}, p)
    requires HasCopy(w, p) && k in CopyOf(w, p) && CopyOf(w, p)[k].Ref? && CopyOf(w, p)[k].node in base
    requires o in w.drafts && DraftOk(w, base, root, mem, {}, o)
    ensures o.base != CopyOf(w, p)[k].node
  {
  }

  lemma StartFinalizing(w: World, base: map<Node, Fields>, root: Node, mem: Memory, image: Image, p: StateProxy)
    requires p in w.drafts && Inv(w, base, root, mem, {}) && ImageOk(w, base, image)
    ensures Finalizing(w, mem, image, p)
  {
    assert DraftOk(w, base, root, mem, {}, p);
    if Modified(w, p) {
      forall k | k in CopyOf(w, p)
        ensures Settled(w, image, CopyOf(w, p)[k], mem[Base(p.base)][k]) || Open(w, CopyOf(w, p)[k], mem[Base(p.base)][k])
      {
        StartValue(w, base, root, mem, image, p, k);
      }
    } else {
      assert !Touched(w, p.base);
    }
  }

  lemma ValueCase(w: World, base: map<Node, Fields>, image: Image, b: Node, k: Key, v: Value, r: RVal)
    requires ImageOk(w, base, image) && Means(w, v, r) && Storable(w, base, b, k, v)
    requires v.Ref? && v.node in base ==> !Touched(w, v.node)
    ensures Settled(w, image, v, r) || Open(w, v, r)
  {
  }

  lemma StartValue(w: World, base: map<Node, Fields>, root: Node, mem: Memory, image: Image, p: StateProxy, k: Key)
    requires Inv(w, base, root, mem, {}) && ImageOk(w, base, image)
    requires p in w.drafts && HasCopy(w, p) && k in CopyOf(w, p) && DraftOk(w, base, root, mem, {}, p)
    ensures Base(p.base) in mem && k in mem[Base(p.base)]
    ensures Settled(w, image, CopyOf(w, p)[k], mem[Base(p.base)][k]) || Open(w, CopyOf(w, p)[k], mem[Base(p.base)][k])
  {
    var v := CopyOf(w, p)[k];
    assert CopyOk(w, base, mem, p);
    if v.Ref? && v.node in base {
      hide LinkOk, Registered, ProxiesOk, PropsOk, Told, UntouchedOk, CreatedOk, DistinctCopies, ImageOk, CopyOk;
      forall o | o in w.drafts
        ensures o.base != v.node
      {
        RawUntouched(w, base, root, mem, p, k, o);
      }
    }
    ValueCase(w, base, image, p.base, k, v, mem[Base(p.base)][k]);
  }

  lemma AllStart(w: World, base: map<Node, Fields>, root: Node, mem: Memory, image: Image)
    requires Inv(w, base, root, mem, {}) && ImageOk(w, base, image)
    ensures AllFinalizing(w, mem, image)
  {
    forall p | p in w.drafts
      ensures Finalizing(w, mem, image, p)
    {
      StartFinalizing(w, base, root, mem, image, p);
    }
  }

  function Flag(w: World, p: StateProxy): World
    requires p in w.drafts
  {
    w.(drafts := w.drafts[p := w.drafts[p].(finalized := true)])
  }

  lemma FlagKeeps(w: World, mem: Memory, image: Image, p: StateProxy)
    requires AllFinalizing(w, mem, image) && p in w.drafts
    ensures AllFinalizing(Flag(w, p), mem, image)
  {
    var w' := Flag(w, p);
    forall o | o in w'.drafts
      ensures Finalizing(w', mem, image, o)
    {
      assert Finalizing(w, mem, image, o);
      FlagDraft(w, mem, image, p, o);
    }
  }

  lemma FlagDraft(w: World, mem: Memory, image: Image, p: StateProxy, o: StateProxy)
    requires p in w.drafts && o in w.drafts && Finalizing(w, mem, image, o)
    ensures Finalizing(Flag(w, p), mem, image, o)
  {
    var w' := Flag(w, p);
    if Modified(w', o) {
      forall k | k in CopyOf(w', o)
        ensures Settled(w', image, CopyOf(w', o)[k], mem[Base(o.base)][k]) || Open(w', CopyOf(w', o)[k], mem[Base(o.base)][k])
      {
        assert CopyOf(w', o)[k] == CopyOf(w, o)[k];
      }
    }
  }

  lemma SettleKeeps(w: World, mem: Memory, image: Image, p: StateProxy, k: Key, v: Value)
    requires AllFinalizing(w, mem, image) && p in w.drafts && HasCopy(w, p) && k in CopyOf(w, p)
    requires Base(p.base) in mem && k in mem[Base(p.base)] && Settled(w, image, v, mem[Base(p.base)][k])
    ensures AllFinalizing(Assign(w, p, k, v), mem, image)
  {
    var w' := Assign(w, p, k, v);
    forall o | o in w'.drafts
      ensures Finalizing(w', mem, image, o)
    {
      assert Finalizing(w, mem, image, o);
      SettleDraft(w, mem, image, p, k, v, o);
    }
  }

  lemma SettleDraft(w: World, mem: Memory, image: Image, p: StateProxy, k: Key, v: Value, o: StateProxy)
    requires DistinctCopies(w) && p in w.drafts && HasCopy(w, p) && k in CopyOf(w, p) && o in w.drafts && Finalizing(w, mem, image, o)
    requires Base(p.base) in mem && k in mem[Base(p.base)] && Settled(w, image, v, mem[Base(p.base)][k])
    ensures Finalizing(Assign(w, p, k, v), mem, image, o)
  {
    var w' := Assign(w, p, k, v);
    if Modified(w', o) {
      assert o != p ==> CopyOf(w', o) == CopyOf(w, o);
      forall l | l in CopyOf(w', o)
        ensures Settled(w', image, CopyOf(w', o)[l], mem[Base(o.base)][l]) || Open(w', CopyOf(w', o)[l], mem[Base(o.base)][l])
      {
        assert CopyOf(w', o)[l] == if o == p && l == k then v else CopyOf(w, o)[l];
      }
    }
  }

  /** Finalizing only sets flags and completes the copies of drafts it flags; those under way are open. */
  ghost predicate FinalStep(w: World, w': World, mem: Memory, image: Image, open: set<StateProxy>) {
    && w'.drafts.Keys == w.drafts.Keys && w'.created == w.created && w'.nodes.Keys == w.nodes.Keys
    && (forall n | n in w.created && n in w.nodes :: w'.nodes[n] == w.nodes[n])
    && forall p | p in w.drafts :: DraftStep(w, w', mem, image, open, p)
  }

  ghost predicate DraftStep(w: World, w': World, mem: Memory, image: Image, open: set<StateProxy>, p: StateProxy)
    requires p in w.drafts && p in w'.drafts && w'.nodes.Keys == w.nodes.Keys
  {
    && w'.drafts[p] == w.drafts[p].(finalized := w'.drafts[p].finalized)
    && (w.drafts[p].finalized ==> w'.drafts[p].finalized)
    && (HasCopy(w, p) && p !in open ==>
          if w'.drafts[p].finalized && !w.drafts[p].finalized then Done(w', mem, image, p) else CopyOf(w', p) == CopyOf(w, p))
  }

  lemma DoneStays(w: World, w': World, mem: Memory, image: Image, open: set<StateProxy>, p: StateProxy)
    requires Done(w, mem, image, p) && FinalStep(w, w', mem, image, open) && p !in open
    ensures Done(w', mem, image, p)
  {
    assert DraftStep(w, w', mem, image, open, p);
    forall k | k in CopyOf(w, p)
      ensures Reached(w', mem[Base(p.base)][k])
    {
      ReachedStays(w, w', mem, image, open, mem[Base(p.base)][k]);
    }
  }

  lemma ReachedStays(w: World, w': World, mem: Memory, image: Image, open: set<StateProxy>, r: RVal)
    requires Reached(w, r) && FinalStep(w, w', mem, image, open)
    ensures Reached(w', r)
  {
    forall q | q in w'.drafts && Modified(w', q) && r == RObj(Base(q.base))
      ensures w'.drafts[q].finalized
    {
      assert DraftStep(w, w', mem, image, open, q);
    }
  }

  lemma FinalStepTransitive(w: World, w1: World, w2: World, mem: Memory, image: Image, open: set<StateProxy>)
    requires FinalStep(w, w1, mem, image, open) && FinalStep(w1, w2, mem, image, open)
    ensures FinalStep(w, w2, mem, image, open)
  {
    forall p | p in w.drafts
      ensures DraftStep(w, w2, mem, image, open, p)
    {
      assert DraftStep(w, w1, mem, image, open, p) && DraftStep(w1, w2, mem, image, open, p);
      if Done(w1, mem, image, p) && p !in open { DoneStays(w1, w2, mem, image, open, p); }
    }
  }

  lemma SettledStays(w: World, w': World, mem: Memory, image: Image, open: set<StateProxy>, v: Value, r: RVal)
    requires Settled(w, image, v, r) && FinalStep(w, w', mem, image, open)
    ensures Settled(w', image, v, r)
  {
    ReachedStays(w, w', mem, image, open, r);
  }

  /** A draft that is not modified, or already flagged, stands for its image. */
  lemma DraftSettled(w: World, mem: Memory, image: Image, p: StateProxy)
    requires AllFinalizing(w, mem, image) && p in w.drafts && (Modified(w, p) ==> w.drafts[p].finalized)
    ensures Base(p.base) in image
    ensures Modified(w, p) ==> HasCopy(w, p)
    ensures Settled(w, image, Ref(if Modified(w, p) then w.drafts[p].copy else p.base), RObj(Base(p.base)))
  {
    assert Finalizing(w, mem, image, p);
  }

  lemma StepRefl(w: World, mem: Memory, image: Image, open: set<StateProxy>)
    ensures FinalStep(w, w, mem, image, open)
  {
  }

  lemma StepOpens(w: World, w': World, mem: Memory, image: Image, p: StateProxy)
    requires FinalStep(w, w', mem, image, {})
    ensures FinalStep(w, w', mem, image, {p})
  {
    forall o | o in w.drafts
      ensures DraftStep(w, w', mem, image, {p}, o)
    {
      assert DraftStep(w, w', mem, image, {}, o);
    }
  }

  lemma AssignStep(w: World, mem: Memory, image: Image, p: StateProxy, k: Key, v: Value)
    requires AllFinalizing(w, mem, image) && p in w.drafts && HasCopy(w, p)
    ensures FinalStep(w, Assign(w, p, k, v), mem, image, {p})
  {
    assert Finalizing(w, mem, image, p);
    var w' := Assign(w, p, k, v);
    forall o | o in w.drafts
      ensures DraftStep(w, w', mem, image, {p}, o)
    {
    }
  }

  /** Once the open draft is done, the step from before it was flagged is an ordinary one. */
  lemma CloseStep(w: World, w': World, mem: Memory, image: Image, p: StateProxy)
    requires p in w.drafts && !w.drafts[p].finalized && FinalStep(Flag(w, p), w', mem, image, {p}) && Done(w', mem, image, p)
    ensures FinalStep(w, w', mem, image, {})
  {
    forall o | o in w.drafts
      ensures DraftStep(w, w', mem, image, {}, o)
    {
      assert DraftStep(Flag(w, p), w', mem, image, {p}, o);
      if o != p { assert HasCopy(w, o) ==> HasCopy(Flag(w, p), o); }
    }
  }

  lemma MakeDone(w: World, mem: Memory, image: Image, p: StateProxy)
    requires AllFinalizing(w, mem, image) && p in w.drafts && HasCopy(w, p) && w.drafts[p].finalized
    requires Base(p.base) in mem && forall k | k in CopyOf(w, p) && k in mem[Base(p.base)] :: Settled(w, image, CopyOf(w, p)[k], mem[Base(p.base)][k])
    ensures Done(w, mem, image, p)
  {
    assert Finalizing(w, mem, image, p);
  }

  /** The copy of a modified draft while it is being completed. */
  lemma CopyShape(w: World, mem: Memory, image: Image, p: StateProxy)
    requires AllFinalizing(w, mem, image) && p in w.drafts && Modified(w, p)
    ensures HasCopy(w, p) && Base(p.base) in mem && CopyOf(w, p).Keys == mem[Base(p.base)].Keys
    ensures forall k | k in CopyOf(w, p) ::
              Settled(w, image, CopyOf(w, p)[k], mem[Base(p.base)][k]) || Open(w, CopyOf(w, p)[k], mem[Base(p.base)][k])
  {
    assert Finalizing(w, mem, image, p);
  }

  // ----- The result -----

  function FinalFields(image: Image, f: map<Key, RVal>): Fields {
    map k | k in f :: FinalValue(image, f[k])
  }

  /** Names that can be reached in the deep copy and whose image is complete. */
  ghost function Live(w: World, base: map<Node, Fields>): set<Name> {
    (set b | b in base && !Touched(w, b) :: Base(b))
    + (set p | p in w.drafts && w.drafts[p].finalized :: Base(p.base))
    + (set i | 0 <= i < |w.created| :: New(i))
  }

  /** The properties of the object lead to objects of the image. */
  ghost predicate Closed(mem: Memory, live: set<Name>, x: Name) {
    x in mem && forall k | k in mem[x] && mem[x][k].RObj? :: mem[x][k].name in live
  }

  /** Where the fields of the image of x are. */
  ghost function FieldsAt(w: World, base: map<Node, Fields>, n: Node): Fields {
    if n in base then base[n] else if n in w.nodes then w.nodes[n] else map[]
  }

  ghost predicate Complete(w: World, base: map<Node, Fields>, mem: Memory, image: Image, live: set<Name>, x: Name) {
    && x in image && Closed(mem, live, x) && (image[x] in base || image[x] in w.nodes)
    && FieldsAt(w, base, image[x]) == FinalFields(image, mem[x])
  }

  /** What finalizing turned w0, in which nothing was finalized, into. */
  ghost predicate Finished(w0: World, w: World, base: map<Node, Fields>, root: Node, mem: Memory, image: Image) {
    && Inv(w0, base, root, mem, {}) && ImageOk(w0, base, image)
    && (forall p | p in w0.drafts :: !w0.drafts[p].finalized)
    && FinalStep(w0, w, mem, image, {})
  }

  lemma ChildUntouched(w: World, base: map<Node, Fields>, root: Node, mem: Memory, b: Node, k: Key)
    requires Inv(w, base, root, mem, {}) && b in base && !Touched(w, b) && k in base[b] && base[b][k].Ref?
    ensures base[b][k].node in base && !Touched(w, base[b][k].node)
  {
    hide CopyOk, PropsOk, Registered, ProxiesOk, UntouchedOk, CreatedOk;
  }

  lemma UntouchedComplete(w0: World, w: World, base: map<Node, Fields>, root: Node, mem: Memory, image: Image, b: Node)
    requires Finished(w0, w, base, root, mem, image) && b in base && !Touched(w0, b)
    ensures Complete(w, base, mem, image, Live(w0, base), Base(b))
  {
    StartedSo(w0, w, base, root, mem, image);
    UntouchedSame(w0, base, root, mem, image, b);
    hide Inv, FinalStep, Touched, Finished;
    forall k | k in base[b]
      ensures base[b][k] == FinalValue(image, mem[Base(b)][k])
      ensures mem[Base(b)][k].RObj? ==> mem[Base(b)][k].name in Live(w0, base)
    {
      UntouchedValue(w0, base, root, mem, image, b, k);
    }
    hide ImageOk, Live, FinalValue, LiftFields;
    assert base[b] == FinalFields(image, mem[Base(b)]);
  }

  lemma StartedSo(w0: World, w: World, base: map<Node, Fields>, root: Node, mem: Memory, image: Image)
    requires Finished(w0, w, base, root, mem, image)
    ensures Inv(w0, base, root, mem, {}) && ImageOk(w0, base, image)
  {
  }

  lemma UntouchedSame(w: World, base: map<Node, Fields>, root: Node, mem: Memory, image: Image, b: Node)
    requires Inv(w, base, root, mem, {}) && ImageOk(w, base, image) && b in base && !Touched(w, b)
    ensures Base(b) in mem && mem[Base(b)] == LiftFields(base[b]) && Base(b) in image && image[Base(b)] == b
  {
    hide DraftOk, CreatedOk, Touched, SingleDrafts, DistinctCopies, BaseOk;
  }

  lemma UntouchedValue(w: World, base: map<Node, Fields>, root: Node, mem: Memory, image: Image, b: Node, k: Key)
    requires Inv(w, base, root, mem, {}) && ImageOk(w, base, image) && b in base && !Touched(w, b) && k in base[b]
    ensures base[b][k] == FinalValue(image, Lift(base[b][k]))
    ensures Lift(base[b][k]).RObj? ==> Lift(base[b][k]).name in Live(w, base)
  {
    BasePlain(w, base, root, mem, b, k);
    hide Inv, Touched;
    if base[b][k].Ref? {
      ChildUntouched(w, base, root, mem, b, k);
    }
  }

  lemma BasePlain(w: World, base: map<Node, Fields>, root: Node, mem: Memory, b: Node, k: Key)
    requires Inv(w, base, root, mem, {}) && b in base && k in base[b]
    ensures !base[b][k].Draft?
  {
    hide DraftOk, CreatedOk, UntouchedOk;
  }

  lemma CreatedComplete(w0: World, w: World, base: map<Node, Fields>, root: Node, mem: Memory, image: Image, i: nat)
    requires Finished(w0, w, base, root, mem, image) && i < |w0.created|
    ensures Complete(w, base, mem, image, Live(w0, base), New(i))
  {
    var n := w0.created[i];
    assert CreatedOk(w0, mem, i) && n in w0.created && w.nodes[n] == w0.nodes[n];
    hide DraftOk, FinalStep, CreatedOk, Touched, SingleDrafts, DistinctCopies, UntouchedOk;
    forall k | k in w0.nodes[n]
      ensures w0.nodes[n][k] == FinalValue(image, mem[New(i)][k])
      ensures mem[New(i)][k].RObj? ==> mem[New(i)][k].name in Live(w0, base)
    {
      CreatedValue(w0, base, image, w0.nodes[n][k], mem[New(i)][k]);
    }
    assert w0.nodes[n] == FinalFields(image, mem[New(i)]);
  }

  lemma CreatedValue(w: World, base: map<Node, Fields>, image: Image, v: Value, r: RVal)
    requires ImageOk(w, base, image) && Means(w, v, r) && OwnValue(w, v)
    ensures v == FinalValue(image, r) && (r.RObj? ==> r.name in Live(w, base))
  {
  }

  /** The name of a base object or of an object made by the producer. */
  predicate Known(w: World, base: map<Node, Fields>, r: RVal) {
    r.RObj? ==>
      match r.name
      case Base(b) => b in base
      case New(i) => i < |w.created|
  }

  lemma NameOfValue(w: World, base: map<Node, Fields>, b: Node, k: Key, v: Value, r: RVal)
    requires Means(w, v, r) && Storable(w, base, b, k, v) && (v.Draft? ==> v.proxy.base in base)
    ensures Known(w, base, r)
  {
  }

  /** Every name that a copy refers to is known. */
  lemma NamesKnown(w: World, base: map<Node, Fields>, root: Node, mem: Memory, p: StateProxy, k: Key)
    requires Inv(w, base, root, mem, {}) && p in w.drafts && HasCopy(w, p) && k in CopyOf(w, p)
    ensures Base(p.base) in mem && k in mem[Base(p.base)] && Known(w, base, mem[Base(p.base)][k])
  {
    assert DraftOk(w, base, root, mem, {}, p);
    assert CopyOk(w, base, mem, p);
    hide Means, Storable, Known, UntouchedOk, CreatedOk, PropsOk, Registered, ProxiesOk, CopyOk, Unique, Told;
    var v := CopyOf(w, p)[k];
    assert v.Draft? ==> v.proxy.base in base by {
      if v.Draft? {
        StorableDraft(w, base, p.base, k, v);
        assert DraftOk(w, base, root, mem, {}, v.proxy);
      }
    }
    NameOfValue(w, base, p.base, k, v, mem[Base(p.base)][k]);
  }

  lemma StorableDraft(w: World, base: map<Node, Fields>, b: Node, k: Key, v: Value)
    requires Storable(w, base, b, k, v) && v.Draft?
    ensures v.proxy in w.drafts
  {
  }

  /** A draft that was finalized is done. */
  lemma FlaggedDone(w0: World, w: World, base: map<Node, Fields>, root: Node, mem: Memory, image: Image, p: StateProxy)
    requires Finished(w0, w, base, root, mem, image) && p in w0.drafts && p in w.drafts && w.drafts[p].finalized && Modified(w, p)
    ensures Base(p.base) in image && Done(w, mem, image, p) && image[Base(p.base)] == w.drafts[p].copy && w.drafts[p].copy !in base
    ensures HasCopy(w0, p) && CopyOf(w0, p).Keys == CopyOf(w, p).Keys
  {
    assert DraftOk(w0, base, root, mem, {}, p) && DraftStep(w0, w, mem, image, {}, p);
    hide Means, Storable, Known, UntouchedOk, CreatedOk, PropsOk, Registered, ProxiesOk, Unique, Told;
  }

  lemma DoneFields(w: World, mem: Memory, image: Image, p: StateProxy)
    requires Done(w, mem, image, p)
    ensures CopyOf(w, p) == FinalFields(image, mem[Base(p.base)])
  {
  }

  lemma DoneClosed(w0: World, w: World, base: map<Node, Fields>, root: Node, mem: Memory, image: Image, p: StateProxy)
    requires Finished(w0, w, base, root, mem, image) && p in w0.drafts && HasCopy(w0, p)
    requires Done(w, mem, image, p) && CopyOf(w0, p).Keys == CopyOf(w, p).Keys
    ensures Closed(mem, Live(w, base), Base(p.base))
  {
    hide DraftOk, CreatedOk, UntouchedOk, Unique, Known, Live, Reached, Inv, FinalStep, ImageOk, FinalValue;
    forall k | k in CopyOf(w, p)
      ensures mem[Base(p.base)][k].RObj? ==> mem[Base(p.base)][k].name in Live(w, base)
    {
      NamesKnown(w0, base, root, mem, p, k);
      NameLive(w0, w, base, mem, image, mem[Base(p.base)][k]);
    }
  }

  lemma DoneComplete(w0: World, w: World, base: map<Node, Fields>, root: Node, mem: Memory, image: Image, p: StateProxy)
    requires Finished(w0, w, base, root, mem, image) && p in w0.drafts && p in w.drafts && w.drafts[p].finalized && Modified(w, p)
    ensures Complete(w, base, mem, image, Live(w, base), Base(p.base))
  {
    FlaggedDone(w0, w, base, root, mem, image, p);
    DoneFields(w, mem, image, p);
    DoneClosed(w0, w, base, root, mem, image, p);
    hide DraftOk, Inv, Live, FinalFields, FinalStep, ImageOk, Closed, Finished;
  }

  lemma NameLive(w0: World, w: World, base: map<Node, Fields>, mem: Memory, image: Image, r: RVal)
    requires FinalStep(w0, w, mem, image, {}) && Reached(w, r)
    requires Known(w0, base, r)
    ensures r.RObj? ==> r.name in Live(w, base)
  {
    if r.RObj? && r.name.Base? && Touched(w, r.name.node) {
      var q :| q in w.drafts && Modified(w, q) && q.base == r.name.node;
    }
  }

  lemma LiveGrows(w0: World, w: World, base: map<Node, Fields>, mem: Memory, image: Image)
    requires FinalStep(w0, w, mem, image, {})
    ensures Live(w0, base) <= Live(w, base) && forall b :: Touched(w0, b) == Touched(w, b)
  {
    forall p | p in w0.drafts
      ensures Modified(w0, p) == Modified(w, p) && (w0.drafts[p].finalized ==> w.drafts[p].finalized)
    {
      assert DraftStep(w0, w, mem, image, {}, p);
    }
  }

  /** Every live object of the deep copy has a complete image. */
  lemma LiveComplete(w0: World, w: World, base: map<Node, Fields>, root: Node, mem: Memory, image: Image, x: Name)
    requires Finished(w0, w, base, root, mem, image) && x in Live(w, base)
    ensures Complete(w, base, mem, image, Live(w, base), x)
  {
    LiveGrows(w0, w, base, mem, image);
    match x
    case New(i) =>
      CreatedComplete(w0, w, base, root, mem, image, i);
    case Base(b) =>
      if Touched(w, b) {
        var p := FlaggedDraft(w0, w, base, root, mem, image, b);
        DoneComplete(w0, w, base, root, mem, image, p);
      } else {
        LiveInBase(w0, w, base, root, mem, image, b);
        UntouchedComplete(w0, w, base, root, mem, image, b);
      }
  }

  lemma FlaggedDraft(w0: World, w: World, base: map<Node, Fields>, root: Node, mem: Memory, image: Image, b: Node) returns (p: StateProxy)
    requires Finished(w0, w, base, root, mem, image) && Touched(w, b) && Base(b) in Live(w, base)
    ensures p in w0.drafts && p in w.drafts && w.drafts[p].finalized && Modified(w, p) && p.base == b
  {
    hide DraftOk, CreatedOk, UntouchedOk, ImageOk, DistinctCopies, BaseOk;
    p :| p in w.drafts && Modified(w, p) && p.base == b;
    var q :| q in w.drafts && w.drafts[q].finalized && q.base == b;
    assert p == q;
  }

  lemma DraftBase(w: World, base: map<Node, Fields>, root: Node, mem: Memory, p: StateProxy)
    requires p in w.drafts && DraftOk(w, base, root, mem, {}, p)
    ensures p.base in base
  {
  }

  lemma LiveInBase(w0: World, w: World, base: map<Node, Fields>, root: Node, mem: Memory, image: Image, b: Node)
    requires Finished(w0, w, base, root, mem, image) && Base(b) in Live(w, base)
    ensures b in base
  {
    hide ImageOk, DraftOk, CreatedOk, UntouchedOk, Unique, Done;
    if p :| p in w.drafts && w.drafts[p].finalized && p.base == b {
      DraftBase(w0, base, root, mem, p);
    }
  }

  /** Different objects have different images. */
  lemma ImageInjective(w: World, base: map<Node, Fields>, root: Node, mem: Memory, image: Image, x: Name, y: Name)
    requires Inv(w, base, root, mem, {}) && ImageOk(w, base, image) && x in image && y in image && image[x] == image[y]
    ensures x == y
  {
    ImageKind(w, base, root, mem, image, x);
    ImageKind(w, base, root, mem, image, y);
    hide DraftOk, CreatedOk, UntouchedOk, BaseOk;
  }

  lemma ImageKind(w: World, base: map<Node, Fields>, root: Node, mem: Memory, image: Image, x: Name)
    requires Inv(w, base, root, mem, {}) && ImageOk(w, base, image) && x in image
    ensures x.New? ==> x.index < |w.created| && image[x] == w.created[x.index] && image[x] !in base
    ensures x.Base? ==> x.node in base && image[x] !in w.created
    ensures x.Base? && !Touched(w, x.node) ==> image[x] == x.node
    ensures x.Base? && Touched(w, x.node) ==>
              image[x] !in base && exists p :: p in w.drafts && Modified(w, p) && p.base == x.node && image[x] == w.drafts[p].copy
  {
    hide PropsOk, CreatedOk, UntouchedOk, Registered, ProxiesOk, Told, SingleDrafts, DistinctCopies;
    if x.New? {
      assert w.created[x.index] in w.created;
    } else if Touched(w, x.node) {
      var p :| p in w.drafts && Modified(w, p) && p.base == x.node;
      assert DraftOk(w, base, root, mem, {}, p);
    }
  }

  /** An object is copied exactly when some write changed it or an object below it. */
  lemma CopiedIffWritten(w: World, base: map<Node, Fields>, root: Node, mem: Memory, image: Image, written: set<Node>, b: Node)
    requires Inv(w, base, root, mem, {}) && ImageOk(w, base, image) && MarksOk(w, base, written) && LinksOk(w, base, root) && b in base
    ensures Base(b) in image && (image[Base(b)] == b <==> !WrittenBelow(base, written, b))
  {
    ImageKind(w, base, root, mem, image, Base(b));
    hide Inv, ImageOk, Descends, Unique;
    if WrittenBelow(base, written, b) {
      WrittenIsTouched(w, base, root, written, b);
    }
  }

  lemma WrittenIsTouched(w: World, base: map<Node, Fields>, root: Node, written: set<Node>, b: Node)
    requires MarksOk(w, base, written) && LinksOk(w, base, root) && WrittenBelow(base, written, b)
    ensures Touched(w, b)
  {
    var n :| n in written && Above(base, b, n);
    var p :| p in w.drafts && Modified(w, p) && p.base == n;
    var path :| Descends(base, b, n, path);
    DescendsChain(w, base, root, p, b, path);
    var q :| q in Chain(p) && q.base == b;
    ChainDescends(w, base, root, p, q);
    hide LinksOk, Above, Descends;
    assert WrittenBelow(base, written, q.base);
    assert Modified(w, q);
  }

  // ----- Properties that are not listed as modified -----

  lemma UnlistedValue(w: World, base: map<Node, Fields>, root: Node, mem: Memory, image: Image, p: StateProxy, k: Key)
    requires Inv(w, base, root, mem, {}) && ImageOk(w, base, image) && p in w.drafts && Modified(w, p)
    requires HasCopy(w, p) && k in CopyOf(w, p) && k !in w.drafts[p].props && p.base in base
    ensures k in base[p.base] && Base(p.base) in mem && k in mem[Base(p.base)]
    ensures FinalValue(image, mem[Base(p.base)][k]) == base[p.base][k]
  {
    assert DraftOk(w, base, root, mem, {}, p);
    StartValue(w, base, root, mem, image, p, k);
    var v := CopyOf(w, p)[k];
    if v.Draft? {
      UnlistedDraft(w, base, root, mem, image, p, k);
    }
    hide Registered, ProxiesOk, UntouchedOk, CreatedOk, SingleDrafts, DistinctCopies, ImageOk;
  }

  lemma UnlistedDraft(w: World, base: map<Node, Fields>, root: Node, mem: Memory, image: Image, p: StateProxy, k: Key)
    requires Inv(w, base, root, mem, {}) && ImageOk(w, base, image) && p in w.drafts && DraftOk(w, base, root, mem, {}, p) && HasCopy(w, p)
    requires k in CopyOf(w, p) && k !in w.drafts[p].props && CopyOf(w, p)[k].Draft? && p.base in base
    ensures var q := CopyOf(w, p)[k].proxy;
            Base(q.base) in image && image[Base(q.base)] == q.base && k in base[p.base] && base[p.base][k] == Ref(q.base)
  {
    var q := CopyOf(w, p)[k].proxy;
    BaseNoDrafts(base, root, p.base, k);
    assert Unchanged(w, p, k, CopyOf(w, p)[k], {}) && q in w.drafts;
    assert DraftOk(w, base, root, mem, {}, q);
    hide Registered, ProxiesOk, UntouchedOk, CreatedOk, DistinctCopies, CopyOk, PropsOk;
    assert !Touched(w, q.base);
  }

  lemma BaseNoDrafts(base: map<Node, Fields>, root: Node, b: Node, k: Key)
    requires BaseOk(base, root) && b in base
    ensures k in base[b] ==> !base[b][k].Draft?
  {
  }

  /** A property of the result that is not listed as modified is the base's own. */
  lemma UnlistedSame(w0: World, w: World, base: map<Node, Fields>, root: Node, mem: Memory, image: Image, p: StateProxy, k: Key)
    requires Finished(w0, w, base, root, mem, image) && p in w0.drafts && Modified(w0, p) && p in w.drafts && w.drafts[p].finalized
    requires k !in w0.drafts[p].props && p.base in base
    ensures HasCopy(w, p) && (k in CopyOf(w, p) <==> k in base[p.base])
    ensures k in CopyOf(w, p) ==> CopyOf(w, p)[k] == base[p.base][k]
  {
    assert DraftStep(w0, w, mem, image, {}, p);
    FlaggedDone(w0, w, base, root, mem, image, p);
    UnlistedKey(w0, base, root, mem, p, k);
    if k in CopyOf(w, p) {
      UnlistedValue(w0, base, root, mem, image, p, k);
    }
    hide Inv, ImageOk;
  }

  lemma UnlistedKey(w: World, base: map<Node, Fields>, root: Node, mem: Memory, p: StateProxy, k: Key)
    requires Inv(w, base, root, mem, {}) && p in w.drafts && HasCopy(w, p) && k !in w.drafts[p].props && p.base in base
    ensures k in CopyOf(w, p) <==> k in base[p.base]
  {
    assert DraftOk(w, base, root, mem, {}, p);
  }
}
