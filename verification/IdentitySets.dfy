// `IdentitySet` of src/basics/IdentitySet.js: a bit mask over the identities of at most six suits, and the
// finite set of identities it stands for.
module IdentitySets {
  import opened Cards
  import opened BitMasks

  /** 30 bits are enough for six suits, so every 32-bit operator of the source gives a non-negative number. */
  const MAX_SUITS := 6

  datatype IdentitySet = IdentitySet(numSuits: nat, value: bv32)
  {
    ghost predicate Ok() {
      numSuits <= MAX_SUITS && Below(value, numSuits * MAX_RANK)
    }

    /** The identities whose bit is set. */
    ghost function View(): set<Id> {
      SetOf(value, numSuits * MAX_RANK)
    }
  }

  /** The argument of a set operation: another set, an array of identities, or one identity. */
  datatype Argument = Another(other: IdentitySet) | List(ids: seq<Id>) | One(id: Id)

  ghost function SetOf(v: bv32, n: nat): set<Id> {
    set i | 0 <= i < n && Bit(v, i) :: IdAt(i)
  }

  // ----- Identities and bits -----

  lemma IdRound(id: Id, numSuits: nat)
    requires IsId(id, numSuits)
    ensures 0 <= IndexOfId(id) < numSuits * MAX_RANK && IdAt(IndexOfId(id)) == id
  {
    assert id.suit * MAX_RANK + MAX_RANK <= numSuits * MAX_RANK;
  }

  lemma Member(v: bv32, n: nat, i: nat)
    ensures IdAt(i) in SetOf(v, n) <==> i < n && Bit(v, i)
  {
    IndexRound(IdAt(i), i);
    if IdAt(i) in SetOf(v, n) {
      var j :| 0 <= j < n && Bit(v, j) && IdAt(j) == IdAt(i);
      IndexRound(IdAt(j), j);
    }
  }

  // ----- toMask, identitiesToMask and parse -----

  function ToMask(id: Id): bv32
    requires IsId(id, MAX_SUITS)
  {
    MaskAt(IndexOfId(id))
  }

  function IdentitiesToMask(ids: seq<Id>): bv32
    requires forall id | id in ids :: IsId(id, MAX_SUITS)
  {
    if ids == [] then 0 else Or(IdentitiesToMask(ids[..|ids| - 1]), ToMask(ids[|ids| - 1]))
  }

  ghost predicate ArgOk(a: Argument, numSuits: nat) {
    match a
    case Another(s) => s.Ok() && s.numSuits == numSuits
    case List(ids) => forall id | id in ids :: IsId(id, numSuits)
    case One(id) => IsId(id, numSuits)
  }

  function Parse(a: Argument, ghost numSuits: nat): bv32
    requires numSuits <= MAX_SUITS && ArgOk(a, numSuits)
  {
    match a
    case Another(s) => s.value
    case List(ids) => IdentitiesToMask(ids)
    case One(id) => ToMask(id)
  }

  ghost function ArgView(a: Argument): set<Id> {
    match a
    case Another(s) => s.View()
    case List(ids) => set id | id in ids
    case One(id) => {id}
  }

  lemma {:induction false} ListBits(ids: seq<Id>, i: nat)
    requires forall id | id in ids :: IsId(id, MAX_SUITS)
    ensures Bit(IdentitiesToMask(ids), i) <==> IdAt(i) in ids
  {
    if ids == [] {
      ZeroBit(i);
    } else {
      var (front, last) := (ids[..|ids| - 1], ids[|ids| - 1]);
      assert ids == front + [last];
      ListBits(front, i);
      OperatorBits(IdentitiesToMask(front), ToMask(last), i);
      IdRound(last, MAX_SUITS);
      IndexRound(IdAt(i), i);
      MaskBit(IndexOfId(last), i);
    }
  }

  lemma {:induction false} ListBelow(ids: seq<Id>, numSuits: nat)
    requires numSuits <= MAX_SUITS && forall id | id in ids :: IsId(id, numSuits) && IsId(id, MAX_SUITS)
    ensures Below(IdentitiesToMask(ids), numSuits * MAX_RANK)
  {
    if ids == [] {
      BelowZero(numSuits * MAX_RANK);
    } else {
      var (front, last) := (ids[..|ids| - 1], ids[|ids| - 1]);
      assert ids == front + [last];
      ListBelow(front, numSuits);
      IdRound(last, numSuits);
      BelowMask(IndexOfId(last), numSuits * MAX_RANK);
      BelowOperators(IdentitiesToMask(front), ToMask(last), numSuits * MAX_RANK);
    }
  }

  /** The mask of an argument stands for the identities it lists. */
  lemma ParseMeans(a: Argument, numSuits: nat)
    requires numSuits <= MAX_SUITS && ArgOk(a, numSuits)
    ensures Below(Parse(a, numSuits), numSuits * MAX_RANK) && SetOf(Parse(a, numSuits), numSuits * MAX_RANK) == ArgView(a)
  {
    var n := numSuits * MAX_RANK;
    match a
    case Another(s) =>
    case List(ids) =>
      ListBelow(ids, numSuits);
      forall id: Id
        ensures id in SetOf(IdentitiesToMask(ids), n) <==> id in ids
      {
        if id in ids {
          IdRound(id, numSuits);
          ListBits(ids, IndexOfId(id));
        }
        if id in SetOf(IdentitiesToMask(ids), n) {
          var i :| 0 <= i < n && Bit(IdentitiesToMask(ids), i) && IdAt(i) == id;
          ListBits(ids, i);
        }
      }
    case One(id) =>
      IdRound(id, numSuits);
      BelowMask(IndexOfId(id), n);
      forall o: Id
        ensures o in SetOf(ToMask(id), n) <==> o == id
      {
        if o == id { MaskBit(IndexOfId(id), IndexOfId(id)); }
        if o in SetOf(ToMask(id), n) {
          var i :| 0 <= i < n && Bit(ToMask(id), i) && IdAt(i) == o;
          MaskBit(IndexOfId(id), i);
        }
      }
  }

  // ----- The operations -----

  function Union(s: IdentitySet, a: Argument): IdentitySet
    requires s.Ok() && ArgOk(a, s.numSuits)
  {
    IdentitySet(s.numSuits, Or(s.value, Parse(a, s.numSuits)))
  }

  function Intersect(s: IdentitySet, a: Argument): IdentitySet
    requires s.Ok() && ArgOk(a, s.numSuits)
  {
    IdentitySet(s.numSuits, And(s.value, Parse(a, s.numSuits)))
  }

  function Subtract(s: IdentitySet, a: Argument): IdentitySet
    requires s.Ok() && ArgOk(a, s.numSuits)
  {
    IdentitySet(s.numSuits, AndNot(s.value, Parse(a, s.numSuits)))
  }

  function Has(s: IdentitySet, id: Id): bool
    requires s.Ok() && IsId(id, s.numSuits)
  {
    And(s.value, ToMask(id)) != 0
  }

  function Equals(s: IdentitySet, a: Argument): bool
    requires s.Ok() && ArgOk(a, s.numSuits)
  {
    s.value == Parse(a, s.numSuits)
  }

  lemma OperatorAt(a: bv32, b: bv32, n: nat, i: nat)
    requires i < n
    ensures IdAt(i) in SetOf(Or(a, b), n) <==> IdAt(i) in SetOf(a, n) + SetOf(b, n)
    ensures IdAt(i) in SetOf(And(a, b), n) <==> IdAt(i) in SetOf(a, n) * SetOf(b, n)
    ensures IdAt(i) in SetOf(AndNot(a, b), n) <==> IdAt(i) in SetOf(a, n) - SetOf(b, n)
  {
    hide SetOf, Bit, Or, And, AndNot, IdAt;
    OperatorBits(a, b, i);
    Member(a, n, i);
    Member(b, n, i);
    Member(Or(a, b), n, i);
    Member(And(a, b), n, i);
    Member(AndNot(a, b), n, i);
  }

  lemma OnlyIndexed(v: bv32, n: nat, id: Id)
    requires id in SetOf(v, n)
    ensures IndexOfId(id) >= 0 && IndexOfId(id) < n && IdAt(IndexOfId(id)) == id
  {
    var i :| 0 <= i < n && Bit(v, i) && IdAt(i) == id;
    IndexRound(IdAt(i), i);
  }

  lemma OperatorSets(a: bv32, b: bv32, n: nat)
    ensures SetOf(Or(a, b), n) == SetOf(a, n) + SetOf(b, n)
    ensures SetOf(And(a, b), n) == SetOf(a, n) * SetOf(b, n)
    ensures SetOf(AndNot(a, b), n) == SetOf(a, n) - SetOf(b, n)
  {
    hide SetOf, Or, And, AndNot, IdAt, IndexOfId;
    forall id: Id
      ensures id in SetOf(Or(a, b), n) <==> id in SetOf(a, n) + SetOf(b, n)
      ensures id in SetOf(And(a, b), n) <==> id in SetOf(a, n) * SetOf(b, n)
      ensures id in SetOf(AndNot(a, b), n) <==> id in SetOf(a, n) - SetOf(b, n)
    {
      var all := SetOf(Or(a, b), n) + SetOf(And(a, b), n) + SetOf(AndNot(a, b), n) + SetOf(a, n) + SetOf(b, n);
      if id in all {
        if id in SetOf(Or(a, b), n) { OnlyIndexed(Or(a, b), n, id); }
        if id in SetOf(And(a, b), n) { OnlyIndexed(And(a, b), n, id); }
        if id in SetOf(AndNot(a, b), n) { OnlyIndexed(AndNot(a, b), n, id); }
        if id in SetOf(a, n) { OnlyIndexed(a, n, id); }
        if id in SetOf(b, n) { OnlyIndexed(b, n, id); }
        OperatorAt(a, b, n, IndexOfId(id));
      }
    }
  }

  /** Union, intersection and difference are those of sets. */
  lemma OperationsAreSets(s: IdentitySet, a: Argument)
    requires s.Ok() && ArgOk(a, s.numSuits)
    ensures Union(s, a).Ok() && Union(s, a).View() == s.View() + ArgView(a)
    ensures Intersect(s, a).Ok() && Intersect(s, a).View() == s.View() * ArgView(a)
    ensures Subtract(s, a).Ok() && Subtract(s, a).View() == s.View() - ArgView(a)
  {
    ParseMeans(a, s.numSuits);
    OperatorSets(s.value, Parse(a, s.numSuits), s.numSuits * MAX_RANK);
    BelowOperators(s.value, Parse(a, s.numSuits), s.numSuits * MAX_RANK);
    hide SetOf, Parse, ArgView;
  }

  /** `has` is membership. */
  lemma HasIsMember(s: IdentitySet, id: Id)
    requires s.Ok() && IsId(id, s.numSuits)
    ensures Has(s, id) <==> id in s.View()
  {
    IdRound(id, s.numSuits);
    MaskTest(s.value, IndexOfId(id));
    Member(s.value, s.numSuits * MAX_RANK, IndexOfId(id));
  }

  lemma {:induction false} SameSets(a: bv32, b: bv32, n: nat)
    requires Below(a, n) && Below(b, n) && SetOf(a, n) == SetOf(b, n)
    ensures a == b
  {
    forall i: nat | i < n
      ensures Bit(a, i) == Bit(b, i)
    {
      Member(a, n, i);
      Member(b, n, i);
    }
    SameBits(a, b, n);
  }

  /** `equals` is equality of sets. */
  lemma EqualsIsEquality(s: IdentitySet, a: Argument)
    requires s.Ok() && ArgOk(a, s.numSuits)
    ensures Equals(s, a) <==> s.View() == ArgView(a)
  {
    ParseMeans(a, s.numSuits);
    if s.View() == ArgView(a) {
      SameSets(s.value, Parse(a, s.numSuits), s.numSuits * MAX_RANK);
    }
  }

  // ----- array -----

  lemma ArrayNext(v: bv32, n: nat, i: nat)
    requires i < n
    ensures ArrayUpTo(SetOf(v, n), i + 1) == ArrayUpTo(SetOf(v, n), i) + if Bit(v, i) then [IdAt(i)] else []
  {
    Member(v, n, i);
    hide SetOf, Bit;
    assert ArrayUpTo(SetOf(v, n), i) + [] == ArrayUpTo(SetOf(v, n), i);
  }

  /** The `array` getter: `run` walks over the bits. */
  method Array(s: IdentitySet) returns (ids: seq<Id>)
    requires s.Ok()
    ensures ids == ArrayOf(s.View(), s.numSuits)
  {
    var run: bv32 := 1;
    ids := [];
    var n := s.numSuits * MAX_RANK;
    hide SetOf, Below, Bit, And, Double;
    assert MaskAt(0) == 1;
    for i := 0 to n
      invariant run == MaskAt(i) && ids == ArrayUpTo(s.View(), i)
    {
      MaskTest(s.value, i);
      ArrayNext(s.value, n, i);
      if And(s.value, run) != 0 {
        ids := ids + [Id(i / MAX_RANK, i % MAX_RANK + 1)];
      }
      run := Double(run);
    }
  }

  /** The mask of the array is the set's value again. */
  lemma MaskOfArray(s: IdentitySet)
    requires s.Ok()
    ensures forall id | id in ArrayOf(s.View(), s.numSuits) :: IsId(id, s.numSuits)
    ensures IdentitiesToMask(ArrayOf(s.View(), s.numSuits)) == s.value
  {
    var ids := ArrayOf(s.View(), s.numSuits);
    ViewIds(s);
    ArrayOfIsExact(s.View(), s.numSuits);
    ParseMeans(List(ids), s.numSuits);
    assert ArgView(List(ids)) == s.View();
    SameSets(s.value, IdentitiesToMask(ids), s.numSuits * MAX_RANK);
  }

  lemma ViewIds(s: IdentitySet)
    ensures forall id | id in s.View() :: IsId(id, s.numSuits)
  {
    forall id | id in s.View()
      ensures IsId(id, s.numSuits)
    {
      var i :| 0 <= i < s.numSuits * MAX_RANK && Bit(s.value, i) && IdAt(i) == id;
    }
  }

  // ----- length -----

  lemma {:induction false} OnesMore(v: bv32, n: nat)
    ensures Ones(v, n + 1) == Ones(v, n) + if Bit(v, n) then 1 else 0
    decreases n
  {
    hide Half, Odd;
    if n > 0 {
      OnesMore(Half(v), n - 1);
    } else {
      assert Ones(Half(v), 0) == 0;
    }
  }

  lemma {:induction false} SetSize(v: bv32, n: nat)
    ensures |SetOf(v, n)| == Ones(v, n)
  {
    if n > 0 {
      SetSize(v, n - 1);
      OnesMore(v, n - 1);
      SetNext(v, n);
    }
  }

  lemma SetNext(v: bv32, n: nat)
    requires n > 0
    ensures SetOf(v, n) == SetOf(v, n - 1) + if Bit(v, n - 1) then {IdAt(n - 1)} else {}
    ensures IdAt(n - 1) !in SetOf(v, n - 1)
  {
    Member(v, n - 1, n - 1);
  }

  lemma {:induction false} OnesBelow(v: bv32, n: nat, k: nat)
    requires Below(v, n)
    ensures Ones(v, n + k) == Ones(v, n)
    decreases k
  {
    if k > 0 {
      OnesBelow(v, n, k - 1);
      OnesMore(v, n + k - 1);
      if Bit(v, n + k - 1) { BelowBit(v, n, n + k - 1); }
    }
  }

  /** The population count is the number of identities in the set. */
  lemma LengthIsSize(s: IdentitySet)
    requires s.Ok()
    ensures LengthGetter(s.value) == |s.View()|
  {
    var n := s.numSuits * MAX_RANK;
    SetSize(s.value, n);
    OnesBelow(s.value, n, 32 - n);
    LengthCounts(s.value);
    LengthIsExact(s.value);
  }
}
