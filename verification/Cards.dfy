// Identities, orders and the small containers shared by every component.
module Cards {

  datatype Option<+T> = None | Some(value: T)

  /** A card identity: suit index and rank (1 to 5). */
  datatype Id = Id(suit: nat, rank: nat)

  /** The position of a card in the deck; it names the physical card. */
  type Order = nat

  /** What every order of the deck really is. */
  type Deal = seq<Id>

  const MAX_RANK := 5

  /** Identity number i in the order in which `IdentitySet.array` lists them. */
  function IdAt(i: nat): Id {
    Id(i / MAX_RANK, i % MAX_RANK + 1)
  }

  predicate IsId(id: Id, numSuits: nat) {
    id.suit < numSuits && 1 <= id.rank <= MAX_RANK
  }

  function IndexOfId(id: Id): int {
    id.suit * MAX_RANK + (id.rank - 1)
  }

  /** The members of s among the first n identities, in increasing order. */
  function ArrayUpTo(s: set<Id>, n: nat): (a: seq<Id>)
    ensures forall k | 0 <= k < |a| :: a[k] in s && IndexOfId(a[k]) < n && 1 <= a[k].rank <= MAX_RANK
    ensures forall j, k | 0 <= j < k < |a| :: IndexOfId(a[j]) < IndexOfId(a[k])
  {
    if n == 0 then []
    else if IdAt(n - 1) in s then ArrayUpTo(s, n - 1) + [IdAt(n - 1)]
    else ArrayUpTo(s, n - 1)
  }

  /** The `array` getter of an identity set over numSuits suits. */
  function ArrayOf(s: set<Id>, numSuits: nat): seq<Id> {
    ArrayUpTo(s, numSuits * MAX_RANK)
  }

  lemma {:induction false} ArrayUpToContains(s: set<Id>, n: nat, id: Id)
    requires id in s && 1 <= id.rank <= MAX_RANK && IndexOfId(id) < n
    ensures id in ArrayUpTo(s, n)
  {
    if IndexOfId(id) == n - 1 {
      assert IdAt(n - 1) == id;
      var a := ArrayUpTo(s, n);
      assert a[|a| - 1] == id;
    } else {
      ArrayUpToContains(s, n - 1, id);
    }
  }

  /** The array lists exactly the members, without repetition. */
  lemma ArrayOfIsExact(s: set<Id>, numSuits: nat)
    requires forall id | id in s :: IsId(id, numSuits)
    ensures forall id :: id in ArrayOf(s, numSuits) <==> id in s
    ensures forall j, k | 0 <= j < k < |ArrayOf(s, numSuits)| :: ArrayOf(s, numSuits)[j] != ArrayOf(s, numSuits)[k]
  {
    forall id | id in s
      ensures id in ArrayOf(s, numSuits)
    {
      assert id.suit * MAX_RANK + MAX_RANK <= numSuits * MAX_RANK;
      ArrayUpToContains(s, numSuits * MAX_RANK, id);
    }
  }

  function Min(a: int, b: int): int {
    if a <= b then a else b
  }

  /** An identity has one place in the order of identities. */
  lemma IndexRound(id: Id, i: nat)
    ensures IndexOfId(IdAt(i)) == i && 1 <= IdAt(i).rank <= MAX_RANK
    ensures 1 <= id.rank <= MAX_RANK ==> (IdAt(i) == id <==> IndexOfId(id) == i)
  {
  }

  function Sum(s: seq<nat>): nat {
    if s == [] then 0 else s[0] + Sum(s[1..])
  }

  lemma {:induction false} SumUpdate(s: seq<nat>, i: nat, v: nat)
    requires i < |s|
    ensures Sum(s[i := v]) == Sum(s) - s[i] + v
  {
    if i == 0 {
      assert s[i := v][1..] == s[1..];
    } else {
      assert s[i := v][1..] == s[1..][i - 1 := v];
      SumUpdate(s[1..], i - 1, v);
    }
  }

  lemma {:induction false} SumMono(a: seq<nat>, b: seq<nat>)
    requires |a| == |b| && forall i | 0 <= i < |a| :: a[i] <= b[i]
    ensures Sum(a) <= Sum(b)
    ensures Sum(a) == Sum(b) <==> a == b
  {
    if a != [] {
      SumMono(a[1..], b[1..]);
      assert a == [a[0]] + a[1..] && b == [b[0]] + b[1..];
    }
  }

  // ----- The universe of identities -----

  ghost function FirstIds(n: nat): set<Id> {
    if n == 0 then {} else FirstIds(n - 1) + {IdAt(n - 1)}
  }

  lemma {:induction false} FirstIdsBound(n: nat)
    ensures |FirstIds(n)| <= n
  {
    if n > 0 { FirstIdsBound(n - 1); }
  }

  lemma {:induction false} FirstIdsContains(n: nat, id: Id)
    requires 1 <= id.rank <= MAX_RANK && IndexOfId(id) < n
    ensures id in FirstIds(n)
  {
    if IndexOfId(id) == n - 1 {
      assert IdAt(n - 1) == id;
    } else {
      FirstIdsContains(n - 1, id);
    }
  }

  lemma SubsetCardinality<T>(a: set<T>, b: set<T>)
    requires a <= b
    ensures |a| <= |b|
    ensures |a| == |b| ==> a == b
  {
    assert b == a + (b - a);
    if |a| == |b| { assert |b - a| == 0; }
  }

  /** A set of identities as large as the universe is the universe. */
  lemma FullSet(s: set<Id>, numSuits: nat)
    requires forall i | i in s :: IsId(i, numSuits)
    requires |s| == numSuits * MAX_RANK
    ensures forall i | IsId(i, numSuits) :: i in s
  {
    forall i | IsId(i, numSuits)
      ensures i in FirstIds(numSuits * MAX_RANK)
    {
      assert i.suit * MAX_RANK + MAX_RANK <= numSuits * MAX_RANK;
      FirstIdsContains(numSuits * MAX_RANK, i);
    }
    FirstIdsBound(numSuits * MAX_RANK);
    SubsetCardinality(s, FirstIds(numSuits * MAX_RANK));
  }
}
