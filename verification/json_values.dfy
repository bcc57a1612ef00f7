/**
 Decoded JSON.  Equality is the one `==` gives: a number and a boolean that compare equal
 there (`True == 1`, `1 == 1.0`) are one value here, so booleans are numbers.
 */
module JsonValues {
  import opened Basics

  datatype Json =
    | Null
    | Num(n: real)
    | Str(s: string)
    | Arr(items: seq<Json>)
    | Obj(m: map<string, Json>)

  // ----- The order of `sorted` on strings -----

  predicate LexLeq(a: string, b: string) {
    if a == "" then true
    else if b == "" then false
    else if a[0] == b[0] then LexLeq(a[1..], b[1..])
    else a[0] < b[0]
  }

  lemma {:induction false} LexTotal(a: string, b: string)
    ensures LexLeq(a, b) || LexLeq(b, a)
    ensures LexLeq(a, b) && LexLeq(b, a) ==> a == b
  {
    if a != "" && b != "" && a[0] == b[0] {
      LexTotal(a[1..], b[1..]);
      assert a == [a[0]] + a[1..] && b == [b[0]] + b[1..];
    }
  }

  lemma {:induction false} LexTransitive(a: string, b: string, c: string)
    requires LexLeq(a, b) && LexLeq(b, c)
    ensures LexLeq(a, c)
  {
    if a != "" && b != "" && c != "" && a[0] == b[0] == c[0] {
      LexTransitive(a[1..], b[1..], c[1..]);
    }
  }

  predicate Least(m: string, s: set<string>) {
    m in s && forall k :: k in s ==> LexLeq(m, k)
  }

  lemma {:induction false} LeastExists(s: set<string>)
    requires s != {}
    ensures exists m :: Least(m, s)
    decreases |s|
  {
    var x :| x in s;
    LexTotal(x, x);
    if s == {x} {
      assert Least(x, s);
    } else {
      assert s - {x} == {} ==> s == {x};
      LeastExists(s - {x});
      var y :| Least(y, s - {x});
      LexTotal(x, y);
      var m := if LexLeq(x, y) then x else y;
      forall k | k in s ensures LexLeq(m, k) {
        if k != x && m == x {
          LexTransitive(x, y, k);
        }
      }
      assert Least(m, s);
    }
  }

  lemma UniqueLeast(a: string, b: string, s: set<string>)
    requires Least(a, s) && Least(b, s)
    ensures a == b
  {
    LexTotal(a, b);
  }

  ghost predicate Ascending(keys: seq<string>) {
    forall i, j :: 0 <= i < j < |keys| ==> keys[i] != keys[j] && LexLeq(keys[i], keys[j])
  }

  /** `sorted(...)` of a set of keys. */
  function SortedKeys(s: set<string>): (keys: seq<string>)
    ensures forall k :: k in keys <==> k in s
    ensures Ascending(keys)
    decreases |s|
  {
    if s == {} then [] else
    var m: string := LeastOf(s);
    [m] + SortedKeys(s - {m})
  }

  function LeastOf(s: set<string>): (m: string)
    requires s != {}
    ensures Least(m, s)
  {
    LeastExists(s);
    assert forall a, b :: Least(a, s) && Least(b, s) ==> a == b by {
      forall a, b | Least(a, s) && Least(b, s) ensures a == b { UniqueLeast(a, b, s); }
    }
    var m :| Least(m, s);
    m
  }
}
