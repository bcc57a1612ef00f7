/**
 The recursive difference of two versioned identities, and the point mutation the
 continuous evaluation uses to provoke exactly one difference.
 */
module IdentityDiff {
  import opened Basics
  import opened JsonValues

  datatype Change = Added | Removed | Changed

  type Path = seq<string>

  datatype Diff = Diff(path: Path, change: Change)

  // ----- The difference on trees -----

  /** The differences in the stable order of `identity_differences`: sorted keys at every level. */
  function Diffs(a: Json, b: Json): seq<Diff>
    requires a.Obj? && b.Obj?
    decreases a, 2
  {
    DiffKeys(a, b, SortedKeys(a.m.Keys + b.m.Keys))
  }

  function DiffKeys(a: Json, b: Json, keys: seq<string>): seq<Diff>
    requires a.Obj? && b.Obj?
    requires forall k :: k in keys ==> k in a.m || k in b.m
    decreases a, 1, |keys|
  {
    if keys == [] then [] else DiffKeys(a, b, keys[..|keys| - 1]) + DiffKey(a, b, keys[|keys| - 1])
  }

  function DiffKey(a: Json, b: Json, key: string): seq<Diff>
    requires a.Obj? && b.Obj? && (key in a.m || key in b.m)
    decreases a, 0
  {
    if key !in a.m then [Diff([key], Added)]
    else if key !in b.m then [Diff([key], Removed)]
    else if a.m[key].Obj? && b.m[key].Obj? then Under(key, Diffs(a.m[key], b.m[key]))
    else if a.m[key] != b.m[key] then [Diff([key], Changed)]
    else []
  }

  /** The same differences one level down. */
  function Under(key: string, ds: seq<Diff>): (r: seq<Diff>)
    ensures |r| == |ds| && forall i :: 0 <= i < |ds| ==> r[i] == Diff([key] + ds[i].path, ds[i].change)
  {
    seq(|ds|, i requires 0 <= i < |ds| => Diff([key] + ds[i].path, ds[i].change))
  }

  // ----- An independent account: look both trees up along the path -----

  function Lookup(t: Json, path: Path): Option<Json> {
    if path == [] then Some(t)
    else if t.Obj? && path[0] in t.m then Lookup(t.m[path[0]], path[1..])
    else None
  }

  /** Both trees have an object just above the path, and they disagree about its last key. */
  predicate Disagree(a: Json, b: Json, d: Diff) {
    d.path != [] &&
    var above, key := d.path[..|d.path| - 1], d.path[|d.path| - 1];
    var (pa, pb) := (Lookup(a, above), Lookup(b, above));
    pa.Some? && pb.Some? && pa.value.Obj? && pb.value.Obj? &&
    var (ma, mb) := (pa.value.m, pb.value.m);
    match d.change
    case Added => key !in ma && key in mb
    case Removed => key in ma && key !in mb
    case Changed => key in ma && key in mb && ma[key] != mb[key] && !(ma[key].Obj? && mb[key].Obj?)
  }

  lemma DisagreeBelow(a: Json, b: Json, d: Diff)
    requires a.Obj? && b.Obj? && |d.path| > 1
    ensures Disagree(a, b, d) <==>
      (d.path[0] in a.m && d.path[0] in b.m && Disagree(a.m[d.path[0]], b.m[d.path[0]], Diff(d.path[1..], d.change)))
  {
    var above := d.path[..|d.path| - 1];
    var below := d.path[1..];
    assert above[1..] == below[..|below| - 1];
  }

  lemma SplitLast(keys: seq<string>)
    requires keys != []
    ensures forall k :: k in keys <==> k in keys[..|keys| - 1] || k == keys[|keys| - 1]
  {
    assert keys == keys[..|keys| - 1] + [keys[|keys| - 1]];
  }

  lemma {:induction false} DiffKeysMember(a: Json, b: Json, keys: seq<string>, d: Diff)
    requires a.Obj? && b.Obj?
    requires forall k :: k in keys ==> k in a.m || k in b.m
    ensures d in DiffKeys(a, b, keys) <==> (exists k :: k in keys && d in DiffKey(a, b, k))
    decreases |keys|
  {
    hide DiffKey;
    if keys != [] {
      var front, last := keys[..|keys| - 1], keys[|keys| - 1];
      DiffKeysMember(a, b, front, d);
      assert DiffKeys(a, b, keys) == DiffKeys(a, b, front) + DiffKey(a, b, last);
      SplitLast(keys);
    }
  }

  lemma DiffKeyStartsThere(a: Json, b: Json, key: string, d: Diff)
    requires a.Obj? && b.Obj? && (key in a.m || key in b.m)
    requires d in DiffKey(a, b, key)
    ensures d.path != [] && d.path[0] == key
  {
  }

  /** The difference reports exactly the places where the two trees disagree. */
  lemma {:induction false} DiffsAreDisagreements(a: Json, b: Json, d: Diff)
    requires a.Obj? && b.Obj?
    ensures d in Diffs(a, b) <==> Disagree(a, b, d)
    decreases a, 1
  {
    hide Diffs, DiffKey;
    DiffsMember(a, b, d);
    if d.path != [] {
      var key := d.path[0];
      if key in a.m || key in b.m {
        DiffKeyIsDisagreement(a, b, key, d);
      } else {
        NoDisagreementWithoutKey(a, b, d);
      }
    }
  }

  lemma NoDisagreementWithoutKey(a: Json, b: Json, d: Diff)
    requires a.Obj? && b.Obj? && d.path != [] && d.path[0] !in a.m && d.path[0] !in b.m
    ensures !Disagree(a, b, d)
  {
    if |d.path| > 1 {
      hide Disagree;
      DisagreeBelow(a, b, d);
    } else {
      assert d.path[..0] == [];
    }
  }

  lemma DiffsMember(a: Json, b: Json, d: Diff)
    requires a.Obj? && b.Obj?
    ensures d in Diffs(a, b) <==>
      (d.path != [] && (d.path[0] in a.m || d.path[0] in b.m) && d in DiffKey(a, b, d.path[0]))
  {
    hide DiffKeys;
    var keys := SortedKeys(a.m.Keys + b.m.Keys);
    DiffKeysMember(a, b, keys, d);
    forall k | k in keys && d in DiffKey(a, b, k) ensures d.path != [] && d.path[0] == k {
      DiffKeyStartsThere(a, b, k, d);
    }
  }

  lemma {:induction false} DiffKeyIsDisagreement(a: Json, b: Json, key: string, d: Diff)
    requires a.Obj? && b.Obj? && (key in a.m || key in b.m)
    requires d.path != [] && d.path[0] == key
    ensures d in DiffKey(a, b, key) <==> Disagree(a, b, d)
    decreases a, 0
  {
    if |d.path| == 1 {
      assert d.path == [key] && d.path[..0] == [];
      if key in a.m && key in b.m && a.m[key].Obj? && b.m[key].Obj? {
        var inner := Diffs(a.m[key], b.m[key]);
        forall i | 0 <= i < |inner| ensures Under(key, inner)[i] != d {
          DiffsAreDisagreements(a.m[key], b.m[key], inner[i]);
          assert inner[i] in inner;
        }
      }
    } else {
      DisagreeBelow(a, b, d);
      if key in a.m && key in b.m {
        var below := Diff(d.path[1..], d.change);
        if a.m[key].Obj? && b.m[key].Obj? {
          DiffsAreDisagreements(a.m[key], b.m[key], below);
          assert d.path == [key] + below.path;
          var inner := Diffs(a.m[key], b.m[key]);
          if below in inner {
            var i :| 0 <= i < |inner| && inner[i] == below;
            assert Under(key, inner)[i] == d;
          }
          if d in Under(key, inner) {
            var i :| 0 <= i < |inner| && Under(key, inner)[i] == d;
            assert inner[i].path == below.path;
          }
        } else {
          NoPathThroughALeaf(a.m[key], b.m[key], below);
        }
      }
    }
  }

  lemma NoPathThroughALeaf(a: Json, b: Json, d: Diff)
    requires !(a.Obj? && b.Obj?)
    ensures !Disagree(a, b, d)
  {
    if d.path != [] {
      assert |d.path| == 1 ==> d.path[..|d.path| - 1] == [];
    }
  }

  // ----- Empty exactly on equal trees -----

  lemma {:induction false} DiffKeysEmpty(a: Json, b: Json, keys: seq<string>)
    requires a.Obj? && b.Obj?
    requires forall k :: k in keys ==> k in a.m || k in b.m
    ensures DiffKeys(a, b, keys) == [] <==> (forall k :: k in keys ==> DiffKey(a, b, k) == [])
    decreases |keys|
  {
    hide DiffKey;
    if keys != [] {
      var front, last := keys[..|keys| - 1], keys[|keys| - 1];
      DiffKeysEmpty(a, b, front);
      assert DiffKeys(a, b, keys) == DiffKeys(a, b, front) + DiffKey(a, b, last);
      SplitLast(keys);
    }
  }

  lemma {:induction false} NoDifferenceMeansEqual(a: Json, b: Json)
    requires a.Obj? && b.Obj?
    ensures Diffs(a, b) == [] <==> a == b
    decreases a
  {
    var keys := SortedKeys(a.m.Keys + b.m.Keys);
    DiffKeysEmpty(a, b, keys);
    forall k | k in keys
      ensures DiffKey(a, b, k) == [] <==> k in a.m && k in b.m && a.m[k] == b.m[k]
    {
      if k in a.m && k in b.m && a.m[k].Obj? && b.m[k].Obj? {
        NoDifferenceMeansEqual(a.m[k], b.m[k]);
      }
    }
    if Diffs(a, b) == [] {
      assert a.m.Keys == b.m.Keys by {
        forall k ensures k in a.m <==> k in b.m {
          assert k in a.m || k in b.m ==> k in keys;
        }
      }
      assert a.m == b.m;
    }
  }

  // ----- Swapping the arguments -----

  function SwapChange(c: Change): Change {
    match c
    case Added => Removed
    case Removed => Added
    case Changed => Changed
  }

  function Swapped(ds: seq<Diff>): (r: seq<Diff>)
    ensures |r| == |ds|
  {
    seq(|ds|, i requires 0 <= i < |ds| => Diff(ds[i].path, SwapChange(ds[i].change)))
  }

  lemma {:induction false} SwapArguments(a: Json, b: Json)
    requires a.Obj? && b.Obj?
    ensures Diffs(b, a) == Swapped(Diffs(a, b))
    decreases a, 2
  {
    assert a.m.Keys + b.m.Keys == b.m.Keys + a.m.Keys;
    SwapKeys(a, b, SortedKeys(a.m.Keys + b.m.Keys));
  }

  lemma {:induction false} SwapKeys(a: Json, b: Json, keys: seq<string>)
    requires a.Obj? && b.Obj?
    requires forall k :: k in keys ==> k in a.m || k in b.m
    ensures DiffKeys(b, a, keys) == Swapped(DiffKeys(a, b, keys))
    decreases a, 1, |keys|
  {
    hide DiffKey;
    if keys != [] {
      SwapKeys(a, b, keys[..|keys| - 1]);
      SwapKey(a, b, keys[|keys| - 1]);
    }
  }

  lemma {:induction false} SwapKey(a: Json, b: Json, key: string)
    requires a.Obj? && b.Obj? && (key in a.m || key in b.m)
    ensures DiffKey(b, a, key) == Swapped(DiffKey(a, b, key))
    decreases a, 0
  {
    hide Diffs;
    if key in a.m && key in b.m && a.m[key].Obj? && b.m[key].Obj? {
      SwapArguments(a.m[key], b.m[key]);
      var inner := Diffs(a.m[key], b.m[key]);
      assert Under(key, Swapped(inner)) == Swapped(Under(key, inner));
    }
  }

  // ----- Triangle law -----

  /** Some reported path is `path` itself or leads to it. */
  ghost predicate Covers(ds: seq<Diff>, path: Path) {
    exists i :: 0 <= i < |ds| && ds[i].path <= path
  }

  ghost predicate DisagreeOnTheWay(a: Json, b: Json, path: Path) {
    exists d :: Disagree(a, b, d) && d.path <= path
  }

  lemma {:induction false} TriangleOfDisagreements(a: Json, b: Json, c: Json, d: Diff)
    requires a.Obj? && b.Obj? && c.Obj? && Disagree(a, c, d)
    ensures DisagreeOnTheWay(a, b, d.path) || DisagreeOnTheWay(b, c, d.path)
    decreases |d.path|
  {
    var key := d.path[0];
    var here := [key];
    assert here[..0] == [] && here <= d.path;
    if |d.path| == 1 {
      assert d.path == here;
    } else {
      DisagreeBelow(a, c, d);
    }
    if key in a.m && key !in b.m {
      assert Disagree(a, b, Diff(here, Removed));
    } else if key !in a.m && key in b.m {
      assert Disagree(a, b, Diff(here, Added));
    } else if key in b.m && key !in c.m {
      assert Disagree(b, c, Diff(here, Removed));
    } else if key !in b.m && key in c.m {
      assert Disagree(b, c, Diff(here, Added));
    } else {
      var (x, y, z) := (a.m[key], b.m[key], c.m[key]);
      if !(x.Obj? && y.Obj?) && x != y {
        assert Disagree(a, b, Diff(here, Changed));
      } else if !(y.Obj? && z.Obj?) && y != z {
        assert Disagree(b, c, Diff(here, Changed));
      } else {
        assert |d.path| > 1;
        var below := Diff(d.path[1..], d.change);
        TriangleOfDisagreements(x, y, z, below);
        LiftDisagreement(a, b, key, below.path);
        LiftDisagreement(b, c, key, below.path);
        assert [key] + below.path == d.path;
      }
    }
  }

  lemma LiftDisagreement(a: Json, b: Json, key: string, path: Path)
    requires a.Obj? && b.Obj? && key in a.m && key in b.m
    ensures DisagreeOnTheWay(a.m[key], b.m[key], path) ==> DisagreeOnTheWay(a, b, [key] + path)
  {
    if d :| Disagree(a.m[key], b.m[key], d) && d.path <= path {
      var lifted := Diff([key] + d.path, d.change);
      assert lifted.path[1..] == d.path;
      DisagreeBelow(a, b, lifted);
      assert lifted.path <= [key] + path;
    }
  }

  /** Whatever changed from `a` to `c` changed, at that path or above it, on one of the two legs through `b`. */
  lemma Triangle(a: Json, b: Json, c: Json, d: Diff)
    requires a.Obj? && b.Obj? && c.Obj? && d in Diffs(a, c)
    ensures Covers(Diffs(a, b), d.path) || Covers(Diffs(b, c), d.path)
  {
    DiffsAreDisagreements(a, c, d);
    TriangleOfDisagreements(a, b, c, d);
    if DisagreeOnTheWay(a, b, d.path) {
      var e :| Disagree(a, b, e) && e.path <= d.path;
      DiffsAreDisagreements(a, b, e);
      var i :| 0 <= i < |Diffs(a, b)| && Diffs(a, b)[i] == e;
    } else {
      var e :| Disagree(b, c, e) && e.path <= d.path;
      DiffsAreDisagreements(b, c, e);
      var i :| 0 <= i < |Diffs(b, c)| && Diffs(b, c)[i] == e;
    }
  }

  // ----- The point mutation -----

  /** `set_path`; `None` where the source raises (no path, a missing key on the way, not an object). */
  function SetPath(t: Json, path: Path, v: Json): Option<Json> {
    if path == [] || !t.Obj? then None
    else if |path| == 1 then Some(Obj(t.m[path[0] := v]))
    else if path[0] !in t.m then None
    else
      var inner := SetPath(t.m[path[0]], path[1..], v);
      if inner.None? then None else Some(Obj(t.m[path[0] := inner.value]))
  }

  function UnderPath(path: Path, ds: seq<Diff>): seq<Diff> {
    seq(|ds|, i requires 0 <= i < |ds| => Diff(path + ds[i].path, ds[i].change))
  }

  /** What replacing `before` at a path by `v` must show as. */
  function PointDiff(path: Path, before: Option<Json>, v: Json): seq<Diff> {
    if before.None? then [Diff(path, Added)]
    else if before.value.Obj? && v.Obj? then UnderPath(path, Diffs(before.value, v))
    else if before.value != v then [Diff(path, Changed)]
    else []
  }

  lemma {:induction false} OnlyOneKey(a: Json, b: Json, keys: seq<string>, key: string)
    requires a.Obj? && b.Obj? && Ascending(keys)
    requires forall k :: k in keys ==> k in a.m || k in b.m
    requires forall k :: k in keys && k != key ==> DiffKey(a, b, k) == []
    ensures DiffKeys(a, b, keys) == if key in keys then DiffKey(a, b, key) else []
    decreases |keys|
  {
    hide DiffKey;
    if keys != [] {
      var front, last := keys[..|keys| - 1], keys[|keys| - 1];
      SplitLast(keys);
      assert Ascending(front) && last !in front;
      OnlyOneKey(a, b, front, key);
      assert DiffKeys(a, b, keys) == DiffKeys(a, b, front) + DiffKey(a, b, last);
    }
  }

  lemma OtherKeysAgree(t: Json, key: string, w: Json)
    requires t.Obj?
    ensures Diffs(t, Obj(t.m[key := w])) == DiffKey(t, Obj(t.m[key := w]), key)
  {
    hide DiffKeys;
    var u := Obj(t.m[key := w]);
    var keys := SortedKeys(t.m.Keys + u.m.Keys);
    forall k | k in keys && k != key ensures DiffKey(t, u, k) == [] {
      if t.m[k].Obj? {
        NoDifferenceMeansEqual(t.m[k], u.m[k]);
      }
    }
    OnlyOneKey(t, u, keys, key);
  }

  lemma PointDiffBelow(key: string, path: Path, before: Option<Json>, v: Json)
    ensures Under(key, PointDiff(path, before, v)) == PointDiff([key] + path, before, v)
  {
    hide Diffs;
    if before.Some? && before.value.Obj? && v.Obj? {
      var inner := Diffs(before.value, v);
      forall i | 0 <= i < |inner| ensures [key] + (path + inner[i].path) == [key] + path + inner[i].path {}
    }
  }

  /** Whatever is replaced by whatever: the difference is the point difference and nothing else. */
  lemma {:induction false} SetPathIsSeenExactly(t: Json, path: Path, v: Json)
    requires SetPath(t, path, v).Some?
    ensures SetPath(t, path, v).value.Obj?
    ensures Diffs(t, SetPath(t, path, v).value) == PointDiff(path, Lookup(t, path), v)
    decreases |path|
  {
    hide Diffs;
    var key := path[0];
    if |path| == 1 {
      OtherKeysAgree(t, key, v);
      assert path == [key] && path[1..] == [];
      if key in t.m && t.m[key].Obj? && v.Obj? {
        assert Under(key, Diffs(t.m[key], v)) == UnderPath(path, Diffs(t.m[key], v));
      }
    } else {
      var inner := SetPath(t.m[key], path[1..], v).value;
      OtherKeysAgree(t, key, inner);
      SetPathIsSeenExactly(t.m[key], path[1..], v);
      PointDiffBelow(key, path[1..], Lookup(t.m[key], path[1..]), v);
      assert path == [key] + path[1..];
    }
  }

  /** The mutations of the continuous evaluation: a leaf replaced by a different leaf is reported as that one path. */
  lemma LeafMutationIsOneDifference(t: Json, path: Path, v: Json)
    requires t.Obj? && path != [] && Lookup(t, path).Some?
    requires !Lookup(t, path).value.Obj? && !v.Obj? && Lookup(t, path).value != v
    ensures SetPath(t, path, v).Some?
    ensures Diffs(t, SetPath(t, path, v).value) == [Diff(path, Changed)]
  {
    SetPathSucceeds(t, path, v);
    SetPathIsSeenExactly(t, path, v);
  }

  lemma {:induction false} SetPathSucceeds(t: Json, path: Path, v: Json)
    requires t.Obj? && path != [] && Lookup(t, path).Some?
    ensures SetPath(t, path, v).Some?
    decreases |path|
  {
    if |path| > 1 {
      assert t.m[path[0]].Obj?;
      SetPathSucceeds(t.m[path[0]], path[1..], v);
    }
  }

  // ----- The reported strings -----

  function Dotted(prefix: string, key: string): string {
    if prefix != "" then prefix + "." + key else key
  }

  /** The path as the source builds it, key by key below the prefix. */
  function PathText(prefix: string, path: Path): string
    decreases |path|
  {
    if path == [] then prefix else PathText(Dotted(prefix, path[0]), path[1..])
  }

  function Text(prefix: string, d: Diff): string {
    PathText(prefix, d.path) +
    match d.change
    case Added => " added"
    case Removed => " removed"
    case Changed => ""
  }

  function Texts(prefix: string, ds: seq<Diff>): (r: seq<string>)
    ensures |r| == |ds|
  {
    seq(|ds|, i requires 0 <= i < |ds| => Text(prefix, ds[i]))
  }

  lemma TextsUnder(prefix: string, key: string, ds: seq<Diff>)
    ensures Texts(prefix, Under(key, ds)) == Texts(Dotted(prefix, key), ds)
  {
    forall i | 0 <= i < |ds| ensures Text(prefix, Under(key, ds)[i]) == Text(Dotted(prefix, key), ds[i]) {
      assert ([key] + ds[i].path)[1..] == ds[i].path;
    }
  }

  lemma NoTexts(prefix: string)
    ensures Texts(prefix, []) == []
  {
  }

  lemma TextsConcat(prefix: string, x: seq<Diff>, y: seq<Diff>)
    ensures Texts(prefix, x + y) == Texts(prefix, x) + Texts(prefix, y)
  {
  }

  lemma TextOfKey(prefix: string, key: string, change: Change)
    ensures Texts(prefix, [Diff([key], change)]) == [Dotted(prefix, key) +
      match change case Added => " added" case Removed => " removed" case Changed => ""]
    ensures Texts(prefix, []) == []
  {
    assert PathText(prefix, [key]) == PathText(Dotted(prefix, key), [key][1..]) == Dotted(prefix, key);
  }

  /** `identity_differences`: the list of strings is the tree difference, in its order. */
  method IdentityDifferences(a: Json, b: Json, prefix: string) returns (differences: seq<string>)
    requires a.Obj? && b.Obj?
    ensures differences == Texts(prefix, Diffs(a, b))
    decreases a
  {
    hide DiffKey, Texts, SortedKeys, Ascending;
    differences := [];
    NoTexts(prefix);
    var keys := SortedKeys(a.m.Keys + b.m.Keys);
    for i := 0 to |keys|
      invariant forall k :: k in keys[..i] ==> k in keys
      invariant differences == Texts(prefix, DiffKeys(a, b, keys[..i]))
    {
      assert keys[..i + 1][..i] == keys[..i] && keys[i] in keys;
      var found := KeyDifferences(a, b, keys[i], prefix);
      TextsConcat(prefix, DiffKeys(a, b, keys[..i]), DiffKey(a, b, keys[i]));
      differences := differences + found;
    }
    assert keys[..|keys|] == keys;
  }

  /** The body of the loop over the keys. */
  method KeyDifferences(a: Json, b: Json, key: string, prefix: string) returns (differences: seq<string>)
    requires a.Obj? && b.Obj? && (key in a.m || key in b.m)
    ensures differences == Texts(prefix, DiffKey(a, b, key))
    decreases a, 0
  {
    hide Texts, Diffs, PathText;
    var path := Dotted(prefix, key);
    assert path + "" == path;
    TextOfKey(prefix, key, Added);
    TextOfKey(prefix, key, Removed);
    TextOfKey(prefix, key, Changed);
    if key !in a.m {
      return [path + " added"];
    }
    if key !in b.m {
      return [path + " removed"];
    }
    if a.m[key].Obj? && b.m[key].Obj? {
      TextsUnder(prefix, key, Diffs(a.m[key], b.m[key]));
      differences := IdentityDifferences(a.m[key], b.m[key], path);
    } else if a.m[key] != b.m[key] {
      return [path];
    } else {
      return [];
    }
  }
}
