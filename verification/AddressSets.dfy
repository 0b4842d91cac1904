// The enumerable set that stores the members of a role: an array of values and a map from
// value to 1-based position (0 when absent), with swap-and-pop removal.
module AddressSets {
  import opened Words

  datatype AddressSet = AddressSet(values: seq<Address>, indexes: map<Address, nat>) {
    // The stored position of x; storage never written reads as 0.
    function IndexOf(x: Address): nat {
      if x in indexes then indexes[x] else 0
    }

    predicate Contains(x: Address) {
      IndexOf(x) != 0
    }

    ghost predicate Valid() {
      && (forall i | 0 <= i < |values| :: values[i] in indexes && indexes[values[i]] == i + 1)
      && (forall x | x in indexes && indexes[x] != 0 :: indexes[x] <= |values| && values[indexes[x] - 1] == x)
    }

    // The mathematical set the structure stands for.
    ghost function Members(): set<Address> {
      Elements(values)
    }

    function Add(x: Address): (r: AddressSet)
      requires Valid()
      ensures r.Valid()
    {
      if Contains(x) then this
      else AddressSet(values + [x], indexes[x := |values| + 1])
    }

    function Remove(x: Address): (r: AddressSet)
      requires Valid()
      ensures r.Valid()
    {
      if !Contains(x) then this
      else
        var hole := IndexOf(x) - 1;
        var moved := values[|values| - 1];
        var r := AddressSet(values[hole := moved][..|values| - 1], indexes[moved := hole + 1][x := 0]);
        SwapAndPop(this, x, r);
        r
    }
  }

  lemma PositionWithin(s: Relayers, x: Address)
    requires s.Contains(x)
    ensures 1 <= s.IndexOf(x) <= |s.values| && s.values[s.IndexOf(x) - 1] == x
  {}

  // Moving the last value into the position of x and dropping the end keeps positions right.
  lemma SwapAndPop(s: AddressSet, x: Address, r: AddressSet)
    requires s.Valid() && s.Contains(x) && |r.values| == |s.values| - 1
    requires forall i | 0 <= i < |r.values| ::
               r.values[i] == s.values[if i == s.IndexOf(x) - 1 then |s.values| - 1 else i]
    requires r.indexes == s.indexes[s.values[|s.values| - 1] := s.IndexOf(x)][x := 0]
    ensures r.Valid()
  {
    forall i | 0 <= i < |r.values| ensures r.values[i] in r.indexes && r.indexes[r.values[i]] == i + 1 {
      var j := if i == s.IndexOf(x) - 1 then |s.values| - 1 else i;
      assert s.indexes[s.values[j]] == j + 1;
    }
  }

  ghost function Elements(v: seq<Address>): set<Address> {
    set x | x in v
  }

  type Relayers = r: AddressSet | r.Valid() witness AddressSet([], map[])

  lemma MembersAreDistinct(s: Relayers)
    ensures forall i, j | 0 <= i < j < |s.values| :: s.values[i] != s.values[j]
    ensures forall x: Address :: x in s.Members() <==> s.Contains(x)
    ensures forall x: Address, y: Address | s.Contains(x) && s.Contains(y) && x != y :: s.IndexOf(x) != s.IndexOf(y)
    ensures |s.Members()| == |s.values|
  {
    CountDistinct(s.values);
  }

  lemma {:induction false} CountDistinct(v: seq<Address>)
    requires forall i, j | 0 <= i < j < |v| :: v[i] != v[j]
    ensures |Elements(v)| == |v|
  {
    if |v| == 0 {
      assert Elements(v) == {};
    } else {
      var front := v[..|v| - 1];
      CountDistinct(front);
      var last := v[|v| - 1];
      assert last !in front;
      assert Elements(v) == Elements(front) + {last};
    }
  }

  lemma {:induction false} SubsetIsSmaller<T>(a: set<T>, b: set<T>)
    requires a <= b
    ensures |a| <= |b|
  {
    assert b == a + (b - a);
  }

  // Adding inserts x and moves nobody.
  lemma AddRefinesInsert(s: Relayers, x: Address)
    ensures s.Add(x).Members() == s.Members() + {x}
    ensures forall y: Address | s.Contains(y) :: s.Add(x).IndexOf(y) == s.IndexOf(y)
    ensures !s.Contains(x) ==> s.Add(x).IndexOf(x) == |s.values| + 1 == |s.Add(x).values|
  {
    MembersAreDistinct(s);
    MembersAreDistinct(s.Add(x));
  }

  // Removing deletes x; every other member keeps its position, except the last one, which
  // takes over the position that x had.
  lemma RemoveRefinesDelete(s: Relayers, x: Address)
    ensures s.Remove(x).Members() == s.Members() - {x}
    ensures forall y: Address | s.Contains(y) && y != x ::
              s.Remove(x).IndexOf(y) ==
              if s.IndexOf(y) == |s.values| && s.Contains(x) then s.IndexOf(x) else s.IndexOf(y)
  {
    var t: Relayers := s.Remove(x);
    PositionsAfterRemove(s, x);
    MembersAreDistinct(s);
    MembersAreDistinct(t);
    hide AddressSet.Valid, AddressSet.Remove, AddressSet.Members;
    forall y: Address ensures y in t.Members() <==> y in s.Members() - {x} {
      assert t.Contains(y) <==> s.Contains(y) && y != x;
    }
  }

  lemma PositionsAfterRemove(s: Relayers, x: Address)
    ensures !s.Remove(x).Contains(x)
    ensures forall y: Address | y != x ::
              s.Remove(x).IndexOf(y) ==
              if s.Contains(y) && s.IndexOf(y) == |s.values| && s.Contains(x) then s.IndexOf(x) else s.IndexOf(y)
  {}

  datatype Change = Insert(x: Address) | Delete(x: Address)

  function Apply(s: Relayers, changes: seq<Change>): Relayers
    decreases |changes|
  {
    if changes == [] then s
    else Apply(if changes[0].Insert? then s.Add(changes[0].x) else s.Remove(changes[0].x), changes[1..])
  }

  ghost function ApplyToSet(m: set<Address>, changes: seq<Change>): set<Address>
    decreases |changes|
  {
    if changes == [] then m
    else ApplyToSet(if changes[0].Insert? then m + {changes[0].x} else m - {changes[0].x}, changes[1..])
  }

  // Over any run of additions and removals the structure holds exactly the members a
  // mathematical set would, and no two current members share a position.
  lemma {:induction false} RunRefinesSet(s: Relayers, changes: seq<Change>)
    ensures Apply(s, changes).Members() == ApplyToSet(s.Members(), changes)
    ensures forall x: Address, y: Address | {x, y} <= Apply(s, changes).Members() && x != y ::
              Apply(s, changes).IndexOf(x) != Apply(s, changes).IndexOf(y)
    decreases |changes|
  {
    if changes == [] {
      MembersAreDistinct(s);
    } else if changes[0].Insert? {
      AddRefinesInsert(s, changes[0].x);
      RunRefinesSet(s.Add(changes[0].x), changes[1..]);
    } else {
      RemoveRefinesDelete(s, changes[0].x);
      RunRefinesSet(s.Remove(changes[0].x), changes[1..]);
    }
  }

  // The storage itself, updated in place.
  class EnumerableSet {
    var values: seq<Address>
    var indexes: map<Address, nat>

    ghost function Value(): AddressSet
      reads this
    {
      AddressSet(values, indexes)
    }

    ghost predicate Valid()
      reads this
    {
      Value().Valid()
    }

    constructor ()
      ensures Valid() && Value() == AddressSet([], map[])
    {
      values, indexes := [], map[];
    }

    method Restore(v: AddressSet)
      requires v.Valid()
      modifies this
      ensures Valid() && Value() == v
    {
      values, indexes := v.values, v.indexes;
    }

    method IndexOf(x: Address) returns (i: nat)
      requires Valid()
      ensures i == Value().IndexOf(x)
      ensures i > 0 ==> i <= |values| && values[i - 1] == x
      ensures i == 0 <==> x !in Value().Members()
    {
      MembersAreDistinct(Value());
      i := if x in indexes then indexes[x] else 0;
    }

    method Add(x: Address) returns (added: bool)
      requires Valid()
      modifies this
      ensures Valid() && Value() == old(Value()).Add(x)
      ensures added <==> !old(Value()).Contains(x)
    {
      var index := IndexOf(x);
      added := index == 0;
      if added {
        values := values + [x];
        indexes := indexes[x := |values|];
      }
    }

    method Remove(x: Address) returns (removed: bool)
      requires Valid()
      modifies this
      ensures Valid() && Value() == old(Value()).Remove(x)
      ensures removed <==> old(Value()).Contains(x)
    {
      hide AddressSet.Valid;
      var index := IndexOf(x);
      removed := index != 0;
      if removed {
        PositionWithin(Value(), x);
        var hole, last := index - 1, |values| - 1;
        if hole != last {
          var moved := values[last];
          values := values[hole := moved];
          indexes := indexes[moved := hole + 1];
        }
        values := values[..last];
        indexes := indexes[x := 0];
        assert Value() == old(Value()).Remove(x);
      }
    }
  }
}
