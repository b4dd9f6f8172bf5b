/** Dropping, keeping and replacing the lines of a body that satisfy a predicate. */
module Filters {
  ghost function Without(ls: seq<string>, p: string -> bool): seq<string> {
    if ls == [] then [] else (if p(ls[0]) then [] else [ls[0]]) + Without(ls[1..], p)
  }

  ghost function Only(ls: seq<string>, p: string -> bool): seq<string> {
    if ls == [] then [] else (if p(ls[0]) then [ls[0]] else []) + Only(ls[1..], p)
  }

  /** The index of the first element satisfying p, or the length. */
  ghost function First(ls: seq<string>, p: string -> bool): (i: nat)
    ensures i <= |ls|
    ensures i < |ls| ==> p(ls[i])
    ensures forall j :: 0 <= j < i ==> !p(ls[j])
  {
    if ls == [] || p(ls[0]) then 0 else 1 + First(ls[1..], p)
  }

  lemma {:induction false} Split(a: seq<string>, b: seq<string>, p: string -> bool)
    ensures Without(a + b, p) == Without(a, p) + Without(b, p)
    ensures Only(a + b, p) == Only(a, p) + Only(b, p)
  {
    if a == [] {
      assert a + b == b;
    } else {
      assert (a + b)[1..] == a[1..] + b;
      Split(a[1..], b, p);
    }
  }

  lemma One(x: string, p: string -> bool)
    ensures Without([x], p) == if p(x) then [] else [x]
    ensures Only([x], p) == if p(x) then [x] else []
  {
    assert [x][1..] == [];
  }

  lemma Snoc(ls: seq<string>, x: string, p: string -> bool)
    ensures Without(ls + [x], p) == Without(ls, p) + (if p(x) then [] else [x])
    ensures Only(ls + [x], p) == Only(ls, p) + (if p(x) then [x] else [])
  {
    Split(ls, [x], p);
    One(x, p);
  }

  lemma {:induction false} NonePass(ls: seq<string>, p: string -> bool)
    requires forall l :: l in ls ==> !p(l)
    ensures Without(ls, p) == ls && Only(ls, p) == []
  {
    if ls != [] {
      NonePass(ls[1..], p);
    }
  }

  lemma {:induction false} Members(ls: seq<string>, p: string -> bool)
    ensures forall l :: l in Without(ls, p) <==> l in ls && !p(l)
    ensures forall l :: l in Only(ls, p) <==> l in ls && p(l)
  {
    if ls != [] {
      Members(ls[1..], p);
    }
  }

  /** Two predicates that agree on a list filter it alike. */
  lemma {:induction false} Agree(ls: seq<string>, p: string -> bool, q: string -> bool)
    requires forall l :: l in ls ==> p(l) == q(l)
    ensures Without(ls, p) == Without(ls, q) && Only(ls, p) == Only(ls, q) && First(ls, p) == First(ls, q)
  {
    if ls != [] {
      Agree(ls[1..], p, q);
    }
  }

  lemma {:induction false} FirstSnoc(ls: seq<string>, x: string, p: string -> bool)
    ensures First(ls + [x], p) == if First(ls, p) < |ls| || p(x) then First(ls, p) else |ls| + 1
  {
    if ls == [] {
      assert ls + [x] == [x];
      assert [x][1..] == [];
    } else {
      assert (ls + [x])[1..] == ls[1..] + [x];
      FirstSnoc(ls[1..], x, p);
    }
  }

  lemma FirstIs(ls: seq<string>, i: nat, p: string -> bool)
    requires i < |ls| && p(ls[i]) && forall j :: 0 <= j < i ==> !p(ls[j])
    ensures First(ls, p) == i
  {
  }

  /** fresh' stands for the first element satisfying p, further ones are gone. */
  ghost function Swapped(ls: seq<string>, p: string -> bool, fresh': string): seq<string> {
    var i := First(ls, p);
    if i == |ls| then ls else ls[..i] + [fresh'] + Without(ls[i + 1..], p)
  }

  /** As Swapped, but fresh' comes last when nothing satisfies p. */
  ghost function Replaced(ls: seq<string>, p: string -> bool, fresh': string): seq<string> {
    if First(ls, p) == |ls| then ls + [fresh'] else Swapped(ls, p, fresh')
  }

  /** The two cases of the definition: nothing satisfies p, or m is the first that does. */
  lemma SwappedAbsent(ls: seq<string>, p: string -> bool, fresh': string)
    requires forall l :: l in ls ==> !p(l)
    ensures First(ls, p) == |ls| && Swapped(ls, p, fresh') == ls && Replaced(ls, p, fresh') == ls + [fresh']
  {
  }

  lemma SwappedAt(head: seq<string>, m: string, tail: seq<string>, p: string -> bool, fresh': string)
    requires p(m) && forall l :: l in head ==> !p(l)
    ensures First(head + [m] + tail, p) == |head|
    ensures Swapped(head + [m] + tail, p, fresh') == head + [fresh'] + Without(tail, p)
    ensures Replaced(head + [m] + tail, p, fresh') == head + [fresh'] + Without(tail, p)
  {
    var ls := head + [m] + tail;
    FirstIs(ls, |head|, p);
    assert ls[..|head|] == head && ls[|head| + 1..] == tail;
  }

  /** A list with some element satisfying p, cut at the first one. */
  lemma Cut(ls: seq<string>, p: string -> bool) returns (head: seq<string>, m: string, tail: seq<string>)
    requires First(ls, p) < |ls|
    ensures ls == head + [m] + tail && p(m) && forall l :: l in head ==> !p(l)
  {
    var i := First(ls, p);
    head, m, tail := ls[..i], ls[i], ls[i + 1..];
  }

  lemma Absent(ls: seq<string>, p: string -> bool)
    requires First(ls, p) == |ls|
    ensures forall l :: l in ls ==> !p(l)
  {
  }

  lemma Assoc<A>(a: seq<A>, b: seq<A>, c: seq<A>)
    ensures a + b + c == a + (b + c)
  {
  }

  lemma SwappedSnocAt(head: seq<string>, m: string, tail: seq<string>, x: string, p: string -> bool, fresh': string)
    requires p(m) && forall l :: l in head ==> !p(l)
    ensures Swapped(head + [m] + tail + [x], p, fresh') ==
            Swapped(head + [m] + tail, p, fresh') + (if p(x) then [] else [x])
    ensures First(head + [m] + tail + [x], p) == First(head + [m] + tail, p) == |head|
  {
    var last := if p(x) then [] else [x];
    Assoc(head + [m], tail, [x]);
    SwappedAt(head, m, tail, p, fresh');
    SwappedAt(head, m, tail + [x], p, fresh');
    Snoc(tail, x, p);
    Assoc(head + [fresh'], Without(tail, p), last);
  }

  lemma SwappedSnoc(ls: seq<string>, x: string, p: string -> bool, fresh': string)
    ensures Swapped(ls + [x], p, fresh') ==
            Swapped(ls, p, fresh') + (if !p(x) then [x] else if First(ls, p) == |ls| then [fresh'] else [])
    ensures First(ls + [x], p) < |ls| + 1 <==> First(ls, p) < |ls| || p(x)
  {
    if First(ls, p) < |ls| {
      var head, m, tail := Cut(ls, p);
      SwappedSnocAt(head, m, tail, x, p, fresh');
      assert p(x) ==> Swapped(ls, p, fresh') + [] == Swapped(ls, p, fresh');
    } else {
      Absent(ls, p);
      if p(x) {
        SwappedAt(ls, x, [], p, fresh');
        assert ls + [x] + [] == ls + [x];
        assert ls + [fresh'] + [] == ls + [fresh'];
      } else {
        SwappedAbsent(ls + [x], p, fresh');
      }
    }
  }

  lemma Idempotent(ls: seq<string>, p: string -> bool)
    ensures Without(Without(ls, p), p) == Without(ls, p) && Only(Without(ls, p), p) == []
  {
    Members(ls, p);
    NonePass(Without(ls, p), p);
  }

  /** Replacing leaves exactly one element satisfying the wider q, and the others as they were. */
  lemma ReplacedHeals(ls: seq<string>, p: string -> bool, fresh': string, q: string -> bool)
    requires q(fresh') && forall l :: l in ls ==> p(l) == q(l)
    ensures Without(Replaced(ls, p, fresh'), q) == Without(ls, q)
    ensures Only(Replaced(ls, p, fresh'), q) == [fresh']
  {
    if First(ls, p) == |ls| {
      Absent(ls, p);
      NonePass(ls, q);
      Snoc(ls, fresh', q);
    } else {
      var head, m, tail := Cut(ls, p);
      SwappedAt(head, m, tail, p, fresh');
      Agree(tail, p, q);
      FilterAround(head, m, tail, q);
      Idempotent(tail, q);
      FilterAround(head, fresh', Without(tail, q), q);
    }
  }

  /** What satisfies no wider q stays as it is, whatever else does. */
  lemma ReplacedKeeps(ls: seq<string>, p: string -> bool, fresh': string, q: string -> bool)
    requires q(fresh') && forall l :: p(l) ==> q(l)
    ensures Without(Replaced(ls, p, fresh'), q) == Without(ls, q)
  {
    if First(ls, p) == |ls| {
      Snoc(ls, fresh', q);
    } else {
      var head, m, tail := Cut(ls, p);
      SwappedAt(head, m, tail, p, fresh');
      WithoutTwice(tail, p, q);
      Split(head + [m], tail, q);
      Snoc(head, m, q);
      Split(head + [fresh'], Without(tail, p), q);
      Snoc(head, fresh', q);
    }
  }

  lemma {:induction false} WithoutTwice(ls: seq<string>, p: string -> bool, q: string -> bool)
    requires forall l :: p(l) ==> q(l)
    ensures Without(Without(ls, p), q) == Without(ls, q)
  {
    if ls != [] {
      WithoutTwice(ls[1..], p, q);
      Split(if p(ls[0]) then [] else [ls[0]], Without(ls[1..], p), q);
      One(ls[0], q);
    }
  }

  lemma FilterAround(head: seq<string>, m: string, tail: seq<string>, q: string -> bool)
    requires q(m) && forall l :: l in head ==> !q(l)
    ensures Without(head + [m] + tail, q) == head + Without(tail, q)
    ensures Only(head + [m] + tail, q) == [m] + Only(tail, q)
  {
    NonePass(head, q);
    Snoc(head, m, q);
    Split(head + [m], tail, q);
    assert head + [] == head && [] + [m] == [m];
  }

  /** Replacing twice, the second time with a wider q, is replacing once. */
  lemma ReplacedChain(ls: seq<string>, p: string -> bool, x: string, q: string -> bool, y: string)
    requires q(x) && forall l :: l in ls ==> p(l) == q(l)
    ensures Replaced(Replaced(ls, p, x), q, y) == Replaced(ls, p, y)
  {
    if First(ls, p) == |ls| {
      Absent(ls, p);
      SwappedAt(ls, x, [], q, y);
      assert ls + [x] + [] == ls + [x];
      assert ls + [y] + [] == ls + [y];
    } else {
      var head, m, tail := Cut(ls, p);
      SwappedAt(head, m, tail, p, x);
      SwappedAt(head, m, tail, p, y);
      SwappedAt(head, x, Without(tail, p), q, y);
      Agree(tail, p, q);
      Idempotent(tail, q);
    }
  }

  /** What a replacement contains: the new line, and each old one that does not satisfy p. */
  lemma ReplacedMembers(ls: seq<string>, p: string -> bool, fresh': string)
    ensures forall l :: l in Replaced(ls, p, fresh') <==> l == fresh' || (l in ls && !p(l))
  {
    if First(ls, p) == |ls| {
      Absent(ls, p);
    } else {
      var head, m, tail := Cut(ls, p);
      SwappedAt(head, m, tail, p, fresh');
      Members(tail, p);
    }
  }
}
