/**
 Identities as the continuous evaluation holds them: dictionaries nested in place.  Mutating a
 deep copy along a path is the point mutation on trees, and leaves the original alone.
 */
module NestedDictionaries {
  import opened Basics
  import opened JsonValues
  import IdentityDiff

  /** A value that is not a dictionary, or a dictionary of its own. */
  datatype Node = Leaf(value: Json) | Child(dict: Dictionary)

  class Dictionary {
    var entries: map<string, Node>
    ghost var Repr: set<Dictionary>

    constructor ()
      ensures Valid() && Value() == Obj(map[]) && Repr == {this}
      ensures entries == map[]
    {
      entries := map[];
      Repr := {this};
    }

    /** A tree: the dictionaries below two different keys share nothing, and none contains this one. */
    ghost predicate Valid()
      reads this, Repr
      decreases Repr
    {
      && this in Repr
      && (forall k :: k in entries && entries[k].Leaf? ==> !entries[k].value.Obj?)
      && (forall k :: k in entries && entries[k].Child? ==>
           && entries[k].dict in Repr && entries[k].dict.Repr <= Repr - {this}
           && entries[k].dict.Valid())
      && (forall j, k :: j in entries && k in entries && j != k && entries[j].Child? && entries[k].Child? ==>
           entries[j].dict.Repr !! entries[k].dict.Repr)
    }

    /** The tree this dictionary stands for. */
    ghost function Value(): (v: Json)
      requires Valid()
      reads this, Repr
      ensures v.Obj? && v.m.Keys == entries.Keys
      decreases Repr
    {
      Obj(map k | k in entries :: if entries[k].Leaf? then entries[k].value else entries[k].dict.Value())
    }
  }

  // ----- Walking down -----

  /** Every key of `path` but possibly none more leads to a nested dictionary. */
  ghost predicate Leads(d: Dictionary, path: seq<string>)
    requires d.Valid()
    reads d, d.Repr
    decreases |path|
  {
    path == [] || (path[0] in d.entries && d.entries[path[0]].Child? && Leads(d.entries[path[0]].dict, path[1..]))
  }

  ghost function Target(d: Dictionary, path: seq<string>): (t: Dictionary)
    requires d.Valid() && Leads(d, path)
    reads d, d.Repr
    ensures t in d.Repr && t.Valid() && t.Repr <= d.Repr
    decreases |path|
  {
    if path == [] then d else Target(d.entries[path[0]].dict, path[1..])
  }

  lemma {:induction false} OneFurther(d: Dictionary, path: seq<string>, key: string)
    requires d.Valid() && Leads(d, path)
    ensures var t := Target(d, path);
      Leads(d, path + [key]) <==> key in t.entries && t.entries[key].Child?
    ensures Leads(d, path + [key]) ==> Target(d, path + [key]) == Target(d, path).entries[key].dict
    decreases |path|
  {
    if path != [] {
      OneFurther(d.entries[path[0]].dict, path[1..], key);
      assert (path + [key])[1..] == path[1..] + [key];
    } else {
      assert (path + [key])[1..] == [];
    }
  }

  /** What the walk reaches in place is what it reaches in the tree. */
  lemma {:induction false} TargetIsLookup(d: Dictionary, path: seq<string>)
    requires d.Valid() && Leads(d, path)
    ensures IdentityDiff.Lookup(d.Value(), path) == Some(Target(d, path).Value())
    decreases |path|
  {
    if path != [] {
      TargetIsLookup(d.entries[path[0]].dict, path[1..]);
    }
  }

  lemma {:induction false} LookupFurther(t: Json, path: seq<string>, key: string)
    ensures var r := IdentityDiff.Lookup(t, path);
      IdentityDiff.Lookup(t, path + [key]) ==
        if r.Some? && r.value.Obj? && key in r.value.m then Some(r.value.m[key]) else None
    decreases |path|
  {
    if path == [] {
      assert ([] + [key])[1..] == [];
    } else {
      assert (path + [key])[1..] == path[1..] + [key];
      if t.Obj? && path[0] in t.m {
        LookupFurther(t.m[path[0]], path[1..], key);
      }
    }
  }

  /** A walk that stops short of an object stops every longer one. */
  lemma {:induction false} NoObjectNoFurther(t: Json, path: seq<string>, more: seq<string>)
    requires IdentityDiff.Lookup(t, path).None? || !IdentityDiff.Lookup(t, path).value.Obj?
    ensures IdentityDiff.Lookup(t, path + more).None? || !IdentityDiff.Lookup(t, path + more).value.Obj?
    decreases |path|
  {
    if path == [] {
      assert path + more == more;
    } else {
      assert (path + more)[1..] == path[1..] + more;
      if t.Obj? && path[0] in t.m {
        NoObjectNoFurther(t.m[path[0]], path[1..], more);
      }
    }
  }

  /** `SetPath` succeeds exactly when an object sits just above the path. */
  lemma {:induction false} SetPathNeedsAnObjectAbove(t: Json, path: seq<string>, v: Json)
    requires path != []
    ensures var above := IdentityDiff.Lookup(t, path[..|path| - 1]);
      IdentityDiff.SetPath(t, path, v).Some? <==> above.Some? && above.value.Obj?
    decreases |path|
  {
    if |path| > 1 {
      var above := path[..|path| - 1];
      assert above[1..] == path[1..][..|path| - 2];
      if t.Obj? && path[0] in t.m {
        SetPathNeedsAnObjectAbove(t.m[path[0]], path[1..], v);
      }
    }
  }

  lemma EntryMeans(d: Dictionary, key: string)
    requires d.Valid() && key in d.entries
    ensures var node := d.entries[key];
      if node.Leaf? then d.Value().m[key] == node.value && !node.value.Obj?
      else node.dict.Valid() && node.dict.Repr < d.Repr && d.Value().m[key] == node.dict.Value()
  {
  }

  // ----- One entry replaced in place -----

  /** Still a tree, of the same value and footprint. */
  twostate predicate Intact(d: Dictionary)
    reads d, d.Repr
  {
    old(d.Valid()) && d.Valid() && d.Value() == old(d.Value()) && d.Repr == old(d.Repr)
  }

  twostate lemma Untouched(d: Dictionary)
    requires old(d.Valid()) && forall x :: x in old(d.Repr) ==> unchanged(x)
    ensures Intact(d)
  {
  }

  twostate lemma ReplacedHere(d: Dictionary, new key: string, new v: Json)
    requires old(d.Valid()) && !v.Obj?
    requires d.Repr == old(d.Repr)
    requires d.entries == old(d.entries)[key := Leaf(v)]
    requires forall x :: x in old(d.Repr) && x != d ==> unchanged(x)
    ensures d.Valid()
    ensures d.Value() == Obj(old(d.Value()).m[key := v])
  {
    forall k | k in old(d.entries) && old(d.entries[k].Child?) ensures Intact(old(d.entries[k].dict)) {
      Untouched(old(d.entries[k].dict));
    }
    assert d.Valid();
    assert d.Value().m == old(d.Value()).m[key := v];
  }

  twostate lemma ReplacedUnder(d: Dictionary, new key: string)
    requires old(d.Valid())
    requires unchanged(d)
    requires key in d.entries && d.entries[key].Child?
    requires d.entries[key].dict.Valid()
    requires d.entries[key].dict.Repr == old(d.entries[key].dict.Repr)
    requires forall x :: x in old(d.Repr) && x !in old(d.entries[key].dict.Repr) ==> unchanged(x)
    ensures d.Valid()
    ensures d.Value() == Obj(old(d.Value()).m[key := d.entries[key].dict.Value()])
  {
    forall k | k in d.entries && k != key && d.entries[k].Child? ensures Intact(d.entries[k].dict) {
      assert old(d.entries[k].dict.Repr) !! old(d.entries[key].dict.Repr);
      assert old(d.entries[k].dict.Repr) <= old(d.Repr);
      Untouched(d.entries[k].dict);
    }
    assert d.Valid() by {
      hide Dictionary.Value;
    }
    forall k | k in d.entries && k != key ensures d.Value().m[k] == old(d.Value()).m[k] {
      hide Dictionary.Valid;
    }
    assert d.Value().m == old(d.Value()).m[key := d.entries[key].dict.Value()] by {
      hide Dictionary.Valid;
    }
  }

  /** One entry of the dictionary just above the end of the path was replaced, and nothing else: that is `SetPath`. */
  twostate lemma {:induction false} ReplacedBelow(d: Dictionary, new path: seq<string>, new v: Json)
    requires old(d.Valid()) && path != [] && !v.Obj?
    requires old(Leads(d, path[..|path| - 1]))
    requires var t := old(Target(d, path[..|path| - 1]));
      t.Repr == old(t.Repr) && t.entries == old(t.entries)[path[|path| - 1] := Leaf(v)]
    requires forall x :: x in old(d.Repr) && x != old(Target(d, path[..|path| - 1])) ==> unchanged(x)
    ensures d.Valid() && d.Repr == old(d.Repr)
    ensures IdentityDiff.SetPath(old(d.Value()), path, v) == Some(d.Value())
    decreases |path|
  {
    if |path| == 1 {
      ReplacedHere(d, path[0], v);
    } else {
      var key, above := path[0], path[..|path| - 1];
      var child := old(d.entries[key].dict);
      assert path[1..][..|path| - 2] == above[1..];
      ReplacedBelow(child, path[1..], v);
      ReplacedUnder(d, key);
    }
  }

  /** The loop of `set_path`: down to the dictionary that holds the last key. */
  method Descend(d: Dictionary, above: seq<string>) returns (target: Dictionary, ok: bool)
    requires d.Valid()
    ensures ok <==> var r := IdentityDiff.Lookup(d.Value(), above); r.Some? && r.value.Obj?
    ensures ok ==> Leads(d, above) && target == Target(d, above)
  {
    hide Dictionary.Value, IdentityDiff.Lookup;
    target := d;
    for i := 0 to |above|
      invariant Leads(d, above[..i]) && target == Target(d, above[..i])
    {
      var key := above[i];
      assert above[..i + 1] == above[..i] + [key];
      OneFurther(d, above[..i], key);
      TargetIsLookup(d, above[..i]);
      LookupFurther(d.Value(), above[..i], key);
      if key !in target.entries || target.entries[key].Leaf? {
        LeafEndsTheWalk(target, key);
        assert above == above[..i + 1] + above[i + 1..];
        NoObjectNoFurther(d.Value(), above[..i + 1], above[i + 1..]);
        return target, false;
      }
      target := target.entries[key].dict;
    }
    assert above[..|above|] == above;
    TargetIsLookup(d, above);
    ok := true;
  }

  lemma LeafEndsTheWalk(d: Dictionary, key: string)
    requires d.Valid() && (key !in d.entries || d.entries[key].Leaf?)
    ensures key in d.Value().m ==> !d.Value().m[key].Obj?
  {
  }

  /** `set_path`: false where the source raises, and then nothing has changed. */
  method SetPath(d: Dictionary, path: seq<string>, v: Json) returns (ok: bool)
    requires d.Valid() && !v.Obj?
    modifies d.Repr
    ensures d.Valid() && d.Repr == old(d.Repr)
    ensures ok <==> IdentityDiff.SetPath(old(d.Value()), path, v).Some?
    ensures d.Value() == if ok then IdentityDiff.SetPath(old(d.Value()), path, v).value else old(d.Value())
  {
    if path == [] {
      return false;
    }
    hide Dictionary.Value, IdentityDiff.SetPath, IdentityDiff.Lookup;
    SetPathNeedsAnObjectAbove(d.Value(), path, v);
    var target;
    target, ok := Descend(d, path[..|path| - 1]);
    if ok {
      target.entries := target.entries[path[|path| - 1] := Leaf(v)];
      ReplacedBelow(d, path, v);
    }
  }

  // ----- The deep copy -----

  /** `copy.deepcopy` of an identity: a new tree of the same value that shares no dictionary with the old one. */
  method DeepCopy(d: Dictionary) returns (c: Dictionary)
    requires d.Valid()
    ensures c.Valid() && fresh(c.Repr) && c.Value() == d.Value()
    decreases d.Repr, 1
  {
    hide Dictionary.Valid, Dictionary.Value;
    c := new Dictionary();
    ghost var base := d.Value().m;
    var left := d.entries.Keys;
    while left != {}
      modifies c
      invariant left <= d.entries.Keys
      invariant c.Valid() && fresh(c.Repr)
      invariant c.entries.Keys == d.entries.Keys - left
      invariant forall k :: k in c.entries ==> c.Value().m[k] == base[k]
      decreases left
    {
      var key :| key in left;
      CopyEntry(d, c, key);
      left := left - {key};
    }
    assert c.Value().m == d.Value().m;
  }

  /** Enter the copy of one entry. */
  method CopyEntry(d: Dictionary, c: Dictionary, key: string)
    requires d.Valid() && key in d.entries && c.Valid() && key !in c.entries && c.Repr + {c} !! d.Repr
    modifies c
    ensures d.Valid() && d.Value() == old(d.Value())
    ensures c.Valid() && fresh(c.Repr - old(c.Repr)) && c.entries.Keys == old(c.entries.Keys) + {key}
    ensures c.Value() == Obj(old(c.Value()).m[key := d.Value().m[key]])
    decreases d.Repr, 0
  {
    hide Dictionary.Valid, Dictionary.Value;
    EntryMeans(d, key);
    var node := d.entries[key];
    if node.Child? {
      var inner := DeepCopy(node.dict);
      AttachChild(c, key, inner);
    } else {
      AttachLeaf(c, key, node.value);
    }
  }

  method AttachLeaf(c: Dictionary, key: string, value: Json)
    requires c.Valid() && key !in c.entries && !value.Obj?
    modifies c
    ensures c.Valid() && c.Repr == old(c.Repr) && c.entries == old(c.entries)[key := Leaf(value)]
    ensures c.Value() == Obj(old(c.Value()).m[key := value])
  {
    c.entries := c.entries[key := Leaf(value)];
    ReplacedHere(c, key, value);
  }

  /** Enter a separate tree under a new key. */
  method AttachChild(c: Dictionary, key: string, child: Dictionary)
    requires c.Valid() && key !in c.entries
    requires child.Valid() && child.Repr !! c.Repr
    modifies c
    ensures c.Valid() && c.Repr == old(c.Repr) + old(child.Repr) && c.entries == old(c.entries)[key := Child(child)]
    ensures c.Value() == Obj(old(c.Value()).m[key := old(child.Value())])
  {
    c.entries := c.entries[key := Child(child)];
    c.Repr := c.Repr + child.Repr;
    Untouched(child);
    forall k | k in old(c.entries) && old(c.entries[k].Child?) ensures Intact(old(c.entries[k].dict)) {
      Untouched(old(c.entries[k].dict));
    }
    assert c.Valid() by {
      hide Dictionary.Value;
    }
    forall k | k in old(c.entries) ensures c.Value().m[k] == old(c.Value()).m[k] {
      hide Dictionary.Valid;
    }
    assert c.Value().m == old(c.Value()).m[key := old(child.Value())] by {
      hide Dictionary.Valid;
    }
  }

  lemma PointDiffOfLeaf(path: seq<string>, before: Option<Json>, v: Json)
    ensures before.Some? && !before.value.Obj? && before.value != v ==>
      IdentityDiff.PointDiff(path, before, v) == [IdentityDiff.Diff(path, IdentityDiff.Changed)]
  {
  }

  /** `make_mutated_identity`: the point mutation of the copy; the base identity keeps its value. */
  method MakeMutatedIdentity(d: Dictionary, path: seq<string>, v: Json) returns (mutated: Dictionary, ok: bool)
    requires d.Valid() && !v.Obj?
    ensures d.Valid() && d.Value() == old(d.Value())
    ensures mutated.Valid() && fresh(mutated.Repr)
    ensures ok <==> IdentityDiff.SetPath(d.Value(), path, v).Some?
    ensures ok ==> Some(mutated.Value()) == IdentityDiff.SetPath(d.Value(), path, v)
    // A leaf replaced by a different leaf is the one difference between the two.
    ensures ok && IdentityDiff.Lookup(d.Value(), path).Some? && !IdentityDiff.Lookup(d.Value(), path).value.Obj?
      && IdentityDiff.Lookup(d.Value(), path).value != v
      ==> IdentityDiff.Diffs(d.Value(), mutated.Value()) == [IdentityDiff.Diff(path, IdentityDiff.Changed)]
  {
    hide Dictionary.Valid, Dictionary.Value, IdentityDiff.SetPath, IdentityDiff.Lookup,
      IdentityDiff.Diffs, IdentityDiff.PointDiff;
    mutated := DeepCopy(d);
    ok := SetPath(mutated, path, v);
    if ok {
      IdentityDiff.SetPathIsSeenExactly(d.Value(), path, v);
      PointDiffOfLeaf(path, IdentityDiff.Lookup(d.Value(), path), v);
    }
  }
}
