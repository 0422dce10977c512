/** pkg/set: a set as the keys of a map, filled and scanned by loops in unspecified order. */
module Sets {
  import opened Permissions

  class Set<T(==)> {
    var entries: map<T, ()>

    function Elements(): set<T> reads this { entries.Keys }

    // New
    constructor ()
      ensures Elements() == {}
    {
      entries := map[];
    }

    method Add(vs: seq<T>) returns (s: Set<T>)
      modifies this
      ensures s == this && Elements() == old(Elements()) + ToSet(vs)
    {
      for i := 0 to |vs|
        invariant Elements() == old(Elements()) + ToSet(vs[..i])
      {
        entries := entries[vs[i] := ()];
        assert vs[..i + 1] == vs[..i] + [vs[i]];
      }
      assert vs[..|vs|] == vs;
      return this;
    }

    method Remove(vs: seq<T>) returns (s: Set<T>)
      modifies this
      ensures s == this && Elements() == old(Elements()) - ToSet(vs)
    {
      for i := 0 to |vs|
        invariant Elements() == old(Elements()) - ToSet(vs[..i])
      {
        entries := entries - {vs[i]};
        assert vs[..i + 1] == vs[..i] + [vs[i]];
      }
      assert vs[..|vs|] == vs;
      return this;
    }

    method Len() returns (n: nat)
      ensures n == |Elements()|
    {
      SameSize(entries);
      return |entries|;
    }

    method Contains(v: T) returns (ok: bool)
      ensures ok == (v in Elements())
    {
      return v in entries;
    }

    method IsSuperset(other: Set<T>) returns (ok: bool)
      ensures ok <==> other.Elements() <= Elements()
    {
      var rest := other.Elements();
      while rest != {}
        invariant rest <= other.Elements() && other.Elements() - rest <= Elements()
      {
        var v :| v in rest;
        var found := Contains(v);
        if !found { return false; }
        rest := rest - {v};
      }
      return true;
    }

    /** Every element once, in some order. */
    method Values() returns (result: seq<T>)
      ensures ToSet(result) == Elements() && |result| == |Elements()|
    {
      result := [];
      var rest := Elements();
      while rest != {}
        invariant rest <= Elements() && ToSet(result) == Elements() - rest
        invariant |result| + |rest| == |Elements()|
      {
        var v :| v in rest;
        ToSetAppend(result, v);
        result := result + [v];
        rest := rest - {v};
      }
    }

    method Clone() returns (result: Set<T>)
      ensures fresh(result) && result.Elements() == Elements()
    {
      result := new Set<T>();
      var rest := Elements();
      while rest != {}
        invariant fresh(result) && rest <= Elements() && result.Elements() == Elements() - rest
      {
        var v :| v in rest;
        result.entries := result.entries[v := ()];
        rest := rest - {v};
      }
    }

    method Union(other: Set<T>) returns (result: Set<T>)
      ensures fresh(result) && result.Elements() == Elements() + other.Elements()
    {
      result := Clone();
      var rest := other.Elements();
      while rest != {}
        invariant fresh(result) && rest <= other.Elements()
        invariant result.Elements() == Elements() + (other.Elements() - rest)
      {
        var v :| v in rest;
        result := result.Add([v]);
        rest := rest - {v};
      }
    }

    method Difference(other: Set<T>) returns (result: Set<T>)
      ensures fresh(result) && result.Elements() == Elements() - other.Elements()
    {
      result := new Set<T>();
      var rest := Elements();
      while rest != {}
        invariant fresh(result) && rest <= Elements()
        invariant result.Elements() == (Elements() - rest) - other.Elements()
      {
        var v :| v in rest;
        var found := other.Contains(v);
        if !found { result := result.Add([v]); }
        rest := rest - {v};
      }
    }

    method SymmetricDifference(other: Set<T>) returns (result: Set<T>)
      ensures fresh(result)
      ensures forall v :: v in result.Elements() <==> (v in Elements()) != (v in other.Elements())
    {
      var left := Difference(other);
      var right := other.Difference(this);
      result := left.Union(right);
    }

    method Intersection(other: Set<T>) returns (result: Set<T>)
      ensures fresh(result) && result.Elements() == Elements() * other.Elements()
    {
      result := new Set<T>();
      // Iterate over the smaller set to reduce lookups.
      var small, large := this, other;
      if |other.entries| < |this.entries| { small, large := other, this; }
      var rest := small.Elements();
      while rest != {}
        invariant fresh(result) && rest <= small.Elements()
        invariant result.Elements() == (small.Elements() - rest) * large.Elements()
      {
        var v :| v in rest;
        var found := large.Contains(v);
        if found { result := result.Add([v]); }
        rest := rest - {v};
      }
    }
  }

  method FromSlice<T(==)>(vs: seq<T>) returns (s: Set<T>)
    ensures fresh(s) && s.Elements() == ToSet(vs)
  {
    s := new Set<T>();
    s := s.Add(vs);
  }

  lemma {:induction false} SameSize<T>(m: map<T, ()>)
    ensures |m| == |m.Keys|
    decreases |m|
  {
    if m != map[] {
      var k :| k in m;
      SameSize(m - {k});
      assert m == (m - {k})[k := m[k]];
      assert m.Keys == (m - {k}).Keys + {k};
    }
  }

  lemma ToSetAppend<T>(s: seq<T>, v: T)
    ensures ToSet(s + [v]) == ToSet(s) + {v}
  {
  }

  lemma DisjointMeansEmpty<T>(a: set<T>, b: set<T>)
    ensures a !! b <==> |a * b| == 0
  {
    if a !! b { assert a * b == {}; }
    if |a * b| == 0 {
      forall v | v in a ensures v !in b { assert v !in a * b; }
    }
  }

  /** array_agg(permission.name): every name once, in some order. */
  method PermissionNames(ps: set<Permission>) returns (names: seq<Permission>)
    ensures ToSet(names) == ps
  {
    names := [];
    var rest := ps;
    while rest != {}
      invariant rest <= ps && ToSet(names) == ps - rest
    {
      var p :| p in rest;
      ToSetAppend(names, p);
      names := names + [p];
      rest := rest - {p};
    }
  }

  lemma {:induction false} SomethingNew(known: set<nat>) returns (unused: nat)
    ensures unused !in known && forall k :: k in known ==> k < unused
  {
    unused := 0;
    if known != {} {
      var k :| k in known;
      var rest := SomethingNew(known - {k});
      unused := rest + k + 1;
      assert forall m :: m in known ==> m == k || m in known - {k};
    }
  }

  // ---- What the permission code computes with sets ----------------------------------------------

  /** IsPermissionSuperset */
  method IsPermissionSuperset(permissions: seq<Permission>, required: seq<Permission>) returns (ok: bool)
    ensures ok <==> ToSet(required) <= ToSet(permissions)
  {
    var held := FromSlice(permissions);
    var wanted := FromSlice(required);
    ok := held.IsSuperset(wanted);
  }

  /** changedPerms: the permissions in exactly one of the two lists. */
  method ChangedPerms(curr: seq<Permission>, next: seq<Permission>) returns (changed: seq<Permission>)
    ensures forall p :: p in changed <==> (p in curr) != (p in next)
    ensures |changed| == |ToSet(changed)|
  {
    var c := FromSlice(curr);
    var n := FromSlice(next);
    var d := c.SymmetricDifference(n);
    changed := d.Values();
    assert forall p :: p in changed <==> p in d.Elements();
  }

  /** nextPerms of a modify request. */
  method NextPermissions(curr: seq<Permission>, add: seq<Permission>, remove: seq<Permission>)
      returns (next: seq<Permission>)
    ensures ToSet(next) == (ToSet(curr) + ToSet(add)) - ToSet(remove)
  {
    var s := FromSlice(curr);
    s := s.Add(add);
    s := s.Remove(remove);
    next := s.Values();
  }

  /** The overlap test of ModifyCustomRolePermissions.Validate. */
  method Overlaps(add: seq<Permission>, remove: seq<Permission>) returns (overlap: bool)
    ensures overlap <==> !(ToSet(add) !! ToSet(remove))
  {
    var a := FromSlice(add);
    var r := FromSlice(remove);
    var both := a.Intersection(r);
    var n := both.Len();
    DisjointMeansEmpty(ToSet(add), ToSet(remove));
    overlap := n != 0;
  }
}
