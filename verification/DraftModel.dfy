// What drafts of src/StateProxy.js stand for: the reference semantics (the same reads and writes on a deep copy)
// and the relation between drafts and the deep copy that every trap keeps.
module DraftModel {

  type Key = string

  /** A plain object. */
  class Node {
    var fields: map<Key, Value>

    constructor (f: map<Key, Value>)
      ensures fields == f
    {
      fields := f;
    }
  }

  datatype Value = Undefined | Prim(value: int) | Ref(node: Node) | Draft(proxy: StateProxy)

  /** The state behind one draft. */
  class StateProxy {
    const base: Node
    const parent: StateProxy?
    const ownKey: Key
    ghost const depth: nat
    var modified: bool
    var finalized: bool
    var copy: Node?
    var modifiedProps: set<Key>
    var proxies: map<Key, StateProxy>

    constructor (base: Node, parent: StateProxy?, ownKey: Key)
      ensures this.base == base && this.parent == parent && this.ownKey == ownKey
      ensures this.depth == if parent == null then 0 else parent.depth + 1
      ensures State(this) == NEW_DRAFT
    {
      this.base, this.parent, this.ownKey := base, parent, ownKey;
      this.depth := if parent == null then 0 else parent.depth + 1;
      modified, finalized, copy, modifiedProps, proxies := false, false, null, {}, map[];
    }
  }

  // ----- Plain mutation of a deep copy -----

  /** The objects of the deep copy: those of the base keep its names, new ones are numbered. */
  datatype Name = Base(node: Node) | New(index: nat)

  datatype RVal = RUndefined | RPrim(value: int) | RObj(name: Name)

  type Reg = nat

  /** What a producer does: reads and writes properties, and makes literals and objects. */
  datatype Op =
    | Read(dst: Reg, obj: Reg, key: Key)
    | Write(obj: Reg, key: Key, val: Reg)
    | Literal(dst: Reg, value: int)
    | NewObject(dst: Reg)

  /** Memory and registers of the plain run; written are the base objects that some write changed. */
  datatype Plain = Plain(mem: map<Name, map<Key, RVal>>, regs: map<Reg, RVal>, created: nat, written: set<Node>)

  function Lift(v: Value): RVal {
    match v
    case Undefined => RUndefined
    case Prim(x) => RPrim(x)
    case Ref(n) => RObj(Base(n))
    case Draft(p) => RObj(Base(p.base))
  }

  function LiftFields(f: map<Key, Value>): map<Key, RVal> {
    map k | k in f :: Lift(f[k])
  }

  /** The register holds an object. */
  predicate Holds(s: Plain, r: Reg) {
    r in s.regs && s.regs[r].RObj? && s.regs[r].name in s.mem
  }

  /** Objects made by the producer hold no drafts;
      undefined is written to an object of the base only over a property that is there. */
  predicate Legal(s: Plain, op: Op) {
    match op
    case Read(_, obj, _) => Holds(s, obj)
    case Write(obj, key, val) =>
      && Holds(s, obj) && val in s.regs && (s.regs[val] == RUndefined && s.regs[obj].name.Base? ==> key in s.mem[s.regs[obj].name])
      && (s.regs[obj].name.New? && s.regs[val].RObj? ==> s.regs[val].name.New?)
    case Literal(_, _) => true
    case NewObject(_) => true
  }

  function Property(f: map<Key, RVal>, k: Key): RVal {
    if k in f then f[k] else RUndefined
  }

  /** One operation of the plain run. */
  function PlainStep(s: Plain, op: Op): Plain
    requires Legal(s, op)
  {
    match op
    case Read(dst, obj, key) => s.(regs := s.regs[dst := Property(s.mem[s.regs[obj].name], key)])
    case Write(obj, key, val) =>
      var x := s.regs[obj].name;
      var same := Property(s.mem[x], key) == s.regs[val];
      s.(mem := s.mem[x := s.mem[x][key := s.regs[val]]],
         written := if x.Base? && !same then s.written + {x.node} else s.written)
    case Literal(dst, v) => s.(regs := s.regs[dst := RPrim(v)])
    case NewObject(dst) =>
      s.(mem := s.mem[New(s.created) := map[]], regs := s.regs[dst := RObj(New(s.created))], created := s.created + 1)
  }

  predicate LegalRun(s: Plain, script: seq<Op>)
    decreases |script|
  {
    script != [] ==> Legal(s, script[0]) && LegalRun(PlainStep(s, script[0]), script[1..])
  }

  function PlainRun(s: Plain, script: seq<Op>): Plain
    requires LegalRun(s, script)
    decreases |script|
  {
    if script == [] then s else PlainRun(PlainStep(s, script[0]), script[1..])
  }

  /** The deep copy before the producer runs: register 0 holds its root. */
  function DeepCopy(base: map<Node, map<Key, Value>>, root: Node): Plain {
    Plain(map b | b in base :: Base(b) := LiftFields(base[b]), map[0 := RObj(Base(root))], 0, {})
  }

  /** The base is a tree of plain objects below root. */
  ghost predicate BaseOk(base: map<Node, map<Key, Value>>, root: Node) {
    && root in base
    && (forall a, k | a in base && k in base[a] ::
          base[a][k].Undefined? || base[a][k].Prim? || (base[a][k].Ref? && base[a][k].node in base && base[a][k].node != root))
    && (forall a, k, b, l | a in base && k in base[a] && b in base && l in base[b] && base[a][k].Ref? && base[a][k] == base[b][l] ::
          a == b && k == l)
  }

  // ----- The drafts -----

  datatype DraftState = DraftState(modified: bool, finalized: bool, copy: Node?, props: set<Key>, proxies: map<Key, StateProxy>)

  const NEW_DRAFT := DraftState(false, false, null, {}, map[])

  function State(p: StateProxy): DraftState
    reads p
  {
    DraftState(p.modified, p.finalized, p.copy, p.modifiedProps, p.proxies)
  }

  /** The mutable part of the heap: the drafts, and the fields of copies and of objects made by the producer. */
  datatype World = World(drafts: map<StateProxy, DraftState>, nodes: map<Node, map<Key, Value>>, created: seq<Node>)

  /** The value stands for this value of the deep copy. */
  predicate Means(w: World, v: Value, r: RVal) {
    match r
    case RUndefined => v == Undefined
    case RPrim(x) => v == Prim(x)
    case RObj(Base(b)) => (v == Ref(b) && b !in w.created) || (v.Draft? && v.proxy.base == b)
    case RObj(New(i)) => i < |w.created| && v == Ref(w.created[i])
  }

  predicate Modified(w: World, p: StateProxy) {
    p in w.drafts && w.drafts[p].modified
  }

  /** Some draft of this base object has been modified. */
  ghost predicate Touched(w: World, b: Node) {
    exists p :: p in w.drafts && Modified(w, p) && p.base == b
  }

  /** The draft hangs below its parent as its base object does. */
  ghost predicate LinkOk(w: World, base: map<Node, map<Key, Value>>, root: Node, p: StateProxy) {
    && p.base in base
    && (if p.parent == null then p.base == root
        else
          && p.parent in w.drafts && p.parent.depth < p.depth
          && p.parent.base in base && p.ownKey in base[p.parent.base] && base[p.parent.base][p.ownKey] == Ref(p.base))
  }

  /** The fields of a modified draft's copy. */
  predicate HasCopy(w: World, p: StateProxy) {
    Modified(w, p) && w.drafts[p].copy != null && w.drafts[p].copy in w.nodes
  }

  function CopyOf(w: World, p: StateProxy): map<Key, Value>
    requires HasCopy(w, p)
  {
    w.nodes[w.drafts[p].copy]
  }

  /** The parent will find this draft again instead of making a second one. */
  ghost predicate Registered(w: World, p: StateProxy) {
    p.parent != null && p.parent in w.drafts ==>
      var s := w.drafts[p.parent];
      if s.modified then HasCopy(w, p.parent) ==> !(p.ownKey in CopyOf(w, p.parent) && CopyOf(w, p.parent)[p.ownKey] == Ref(p.base))
      else p.ownKey in s.proxies && s.proxies[p.ownKey] == p
  }

  ghost predicate ProxiesOk(w: World, p: StateProxy)
    requires p in w.drafts
  {
    forall k | k in w.drafts[p].proxies ::
      w.drafts[p].proxies[k] in w.drafts && w.drafts[p].proxies[k].parent == p && w.drafts[p].proxies[k].ownKey == k
  }

  /** What may be stored under key k of the copy of p: no raw base object but the one that was always there. */
  predicate Storable(w: World, base: map<Node, map<Key, Value>>, b: Node, k: Key, v: Value) {
    match v
    case Undefined => true
    case Prim(_) => true
    case Ref(n) => if n in base then b in base && k in base[b] && base[b][k] == v else n in w.created
    case Draft(q) => q in w.drafts
  }

  /** The copy of a modified draft shows the deep copy's object. */
  ghost predicate CopyOk(w: World, base: map<Node, map<Key, Value>>, mem: map<Name, map<Key, RVal>>, p: StateProxy) {
    Modified(w, p) ==>
      && HasCopy(w, p) && w.drafts[p].copy !in base && w.drafts[p].copy !in w.created
      && Base(p.base) in mem && CopyOf(w, p).Keys == mem[Base(p.base)].Keys
      && (forall k | k in CopyOf(w, p) ::
            Means(w, CopyOf(w, p)[k], mem[Base(p.base)][k]) && Storable(w, base, p.base, k, CopyOf(w, p)[k]))
  }

  ghost predicate DistinctCopies(w: World) {
    forall p, q | p in w.drafts && q in w.drafts && Modified(w, p) && Modified(w, q) && w.drafts[p].copy == w.drafts[q].copy :: p == q
  }

  ghost predicate SingleDrafts(w: World) {
    forall p, q | p in w.drafts && q in w.drafts && p.base == q.base :: p == q
  }

  /** Objects that no modified draft stands for are still as they were. */
  ghost predicate UntouchedOk(w: World, base: map<Node, map<Key, Value>>, mem: map<Name, map<Key, RVal>>) {
    forall b | b in base :: Base(b) in mem && (Touched(w, b) || mem[Base(b)] == LiftFields(base[b]))
  }

  /** A property of an object made by the producer: undefined, a primitive or another such object. */
  predicate OwnValue(w: World, v: Value) {
    v.Undefined? || v.Prim? || (v.Ref? && v.node in w.created)
  }

  /** Object number i made by the producer. */
  ghost predicate CreatedOk(w: World, mem: map<Name, map<Key, RVal>>, i: nat)
    requires i < |w.created|
  {
    var n := w.created[i];
    && n in w.nodes && New(i) in mem && w.nodes[n].Keys == mem[New(i)].Keys
    && forall k | k in w.nodes[n] :: Means(w, w.nodes[n][k], mem[New(i)][k]) && OwnValue(w, w.nodes[n][k])
  }

  /** A modified draft has told its parent, unless it is about to. */
  ghost predicate Told(w: World, p: StateProxy, pending: set<StateProxy>) {
    Modified(w, p) && p.parent != null && p !in pending ==> Modified(w, p.parent)
  }

  /** A property that is not listed as modified still shows what the base shows. */
  ghost predicate PropsOk(w: World, base: map<Node, map<Key, Value>>, p: StateProxy, pending: set<StateProxy>) {
    HasCopy(w, p) && p.base in base ==>
      forall k | k !in w.drafts[p].props ::
        && (k in CopyOf(w, p) <==> k in base[p.base])
        && (k in CopyOf(w, p) ==> CopyOf(w, p)[k] == base[p.base][k] || Unchanged(w, p, k, CopyOf(w, p)[k], pending))
  }

  /** The draft of property k, itself not modified. */
  predicate Unchanged(w: World, p: StateProxy, k: Key, v: Value, pending: set<StateProxy>) {
    v.Draft? && v.proxy.parent == p && v.proxy.ownKey == k && (!Modified(w, v.proxy) || v.proxy in pending)
  }

  /** What every trap keeps about one draft. */
  ghost predicate DraftOk(w: World, base: map<Node, map<Key, Value>>, root: Node, mem: map<Name, map<Key, RVal>>,
                          pending: set<StateProxy>, p: StateProxy)
    requires p in w.drafts
  {
    && LinkOk(w, base, root, p) && Registered(w, p) && ProxiesOk(w, p)
    && CopyOk(w, base, mem, p) && Told(w, p, pending) && PropsOk(w, base, p, pending)
  }

  ghost predicate Unique(w: World, base: map<Node, map<Key, Value>>, root: Node) {
    && BaseOk(base, root) && SingleDrafts(w) && DistinctCopies(w)
    && (forall i, j | 0 <= i < j < |w.created| :: w.created[i] != w.created[j])
    && (forall n | n in w.created :: n !in base)
  }

  /** What every trap keeps. The pending drafts are modified, but their parents do not know yet. */
  ghost predicate Inv(w: World, base: map<Node, map<Key, Value>>, root: Node, mem: map<Name, map<Key, RVal>>, pending: set<StateProxy>) {
    && Unique(w, base, root)
    && (forall p | p in w.drafts :: DraftOk(w, base, root, mem, pending, p))
    && UntouchedOk(w, base, mem)
    && (forall i | 0 <= i < |w.created| :: CreatedOk(w, mem, i))
  }
}
